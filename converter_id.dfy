/**
 * ConverterId (package org.example.utils): the parse of a path id, holding
 * either the UUID or the error body.
 */
module Utils {
  import opened Wrappers
  import opened Model
  import opened Dto

  /**
   * UUID.fromString as a partial function: Some on text it accepts, None where
   * it throws IllegalArgumentException. Its grammar is the library's and is
   * supplied from outside.
   */
  type UuidParser = string -> Option<Uuid>

  class ConverterId {
    var id: Option<Uuid>
    var error: Option<ErrorResponse>

    /** Exactly one of the two fields is set, and the error is always the same body. */
    ghost predicate Valid()
      reads this
    {
      || (id.Some? && error == None)
      || (id == None && error == Some(UuidInvalido()))
    }

    constructor (text: string, fromString: UuidParser)
      ensures Valid()
      ensures fromString(text).Some? ==> id == fromString(text) && error == None
      ensures fromString(text) == None ==> id == None && error == Some(UuidInvalido())
    {
      id := None;
      error := None;
      new;
      Converter(text, fromString);
    }

    /** True exactly when the parse failed, that is when no id was set. */
    function HasError(): (b: bool)
      reads this
      requires Valid()
      ensures b <==> id == None
      ensures b ==> error == Some(UuidInvalido())
    {
      error != None
    }

    method Converter(text: string, fromString: UuidParser)
      requires id == None && error == None
      modifies this
      ensures Valid()
      ensures fromString(text).Some? ==> id == fromString(text) && error == None
      ensures fromString(text) == None ==> id == None && error == Some(UuidInvalido())
    {
      var parsed := fromString(text);
      if parsed.Some? {
        id := parsed;
      } else {
        error := Some(UuidInvalido());
      }
    }
  }
}
