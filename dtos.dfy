/** The error record handed back to clients. */
module ErrorDtos {

  /** The location recorded when a caller gives only a description. */
  const DefaultLocation := "OrderController"

  class GenericErrorDto {
    var location: string
    var description: string

    /** The default constructor: no location and no description. */
    constructor ()
      ensures location == "" && description == ""
    {
      location := "";
      description := "";
    }

    /** The describing constructor; the location is optional. */
    constructor Describe(description: string, location: string := DefaultLocation)
      ensures this.description == description && this.location == location
    {
      this.description := description;
      this.location := location;
    }
  }

  /** `new GenericErrorDto(description)`: the omitted location defaults to
      "OrderController". */
  method NewError(description: string) returns (e: GenericErrorDto)
    ensures fresh(e)
    ensures e.description == description && e.location == "OrderController"
  {
    e := new GenericErrorDto.Describe(description);
  }
}

/** The mutable response envelopes. */
module ResponseDtos {
  import opened Common
  import opened ErrorDtos

  /** A plain object: what `new object()` allocates. */
  class BareObject {
  }

  /** A response whose validity flag is driven by its error setter: it starts
      valid, and assigning any actual error makes it invalid for good. */
  class GenericResponseDto {
    var isValid: bool
    var error: GenericErrorDto
    var id: Option<string>
    var returnData: object
    /** The errors assigned through the setter so far, oldest first. */
    ghost var reported: seq<GenericErrorDto>

    ghost predicate Valid()
      reads this
    {
      && (isValid <==> reported == [])
      && (reported != [] ==> error == reported[|reported| - 1])
    }

    constructor ()
      ensures Valid()
      ensures isValid && reported == []
      ensures fresh(error) && error.location == "" && error.description == ""
      ensures id == None && fresh(returnData)
    {
      isValid := true;
      error := new GenericErrorDto();
      id := None;
      returnData := new BareObject;
      reported := [];
    }

    /** No error has been reported since construction. */
    function IsValid(): (r: bool)
      reads this
      requires Valid()
      ensures r <==> reported == []
    {
      isValid
    }

    /** The error is serialised exactly when one has been reported. */
    function ShouldSerializeError(): (r: bool)
      reads this
      requires Valid()
      ensures r <==> reported != []
      ensures r == !IsValid()
    {
      !IsValid()
    }

    /** The getter of `Error`: the latest error reported, if any. */
    function Error(): (e: GenericErrorDto)
      reads this
      requires Valid()
      ensures reported != [] ==> e == reported[|reported| - 1]
    {
      error
    }

    /** The setter of `Error`: a null value is ignored; any other value is
        stored and makes the response invalid. */
    method SetError(value: GenericErrorDto?)
      requires Valid()
      modifies this
      ensures Valid()
      ensures value == null ==> unchanged(this)
      ensures value != null ==>
                && error == value && !isValid
                && reported == old(reported) + [value]
      ensures id == old(id) && returnData == old(returnData)
    {
      if value != null {
        error := value;
        isValid := false;
        reported := reported + [value];
      }
    }

    /** The getter of `Data`, an alias of `ReturnData`. */
    function Data(): object
      reads this
    {
      returnData
    }

    /** The setter of `Data`: writes `ReturnData` and nothing else. */
    method SetData(value: object)
      requires Valid()
      modifies this
      ensures Valid()
      ensures returnData == value && Data() == value
      ensures isValid == old(isValid) && error == old(error) && reported == old(reported)
      ensures id == old(id)
    {
      returnData := value;
    }
  }

  /** The observable state of a create/edit/remove response. */
  datatype Outcome = Outcome(id: int, success: bool, errors: seq<string>)

  /** The effect `IsSuccess(newId)` has on a response's state. */
  function Succeeded(o: Outcome, newId: int): Outcome
  {
    o.(id := newId, success := true)
  }

  /** Reporting success twice with the same id is the same as once, and the
      error list is never touched. */
  lemma SucceededIdempotent(o: Outcome, newId: int)
    ensures Succeeded(Succeeded(o, newId), newId) == Succeeded(o, newId)
    ensures Succeeded(o, newId).errors == o.errors
    ensures Succeeded(o, newId).id == newId && Succeeded(o, newId).success
  {
  }

  class CreateEditRemoveResponseDto {
    var id: int
    var success: bool
    var errors: seq<string>

    function State(): Outcome
      reads this
    {
      Outcome(id, success, errors)
    }

    /** A new response has an empty, non-null error list. */
    constructor ()
      ensures errors == [] && id == 0 && !success
    {
      id := 0;
      success := false;
      errors := [];
    }

    /** Records the id of the entity the request created, edited or removed,
        and marks the response successful. */
    method IsSuccess(newId: int)
      modifies this
      ensures State() == Succeeded(old(State()), newId)
      ensures id == newId && success && errors == old(errors)
    {
      id := newId;
      success := true;
    }
  }
}
