/** `com.hluhovskyi.camerabutton.Constraints`: the guards the latest version's
    setters run before storing a value. */
module HluhovskyiConstraints {
  import opened Java

  const NON_NULL_REQUIRED := "Non-null object required"
  const DIMENSION_NOT_POSITIVE := "Dimension should be greater than 0"
  const DURATION_NOT_POSITIVE := "Duration should be greater than 0"

  /** Returns `obj` itself unless it is null, which throws. */
  function CheckNonNull<T>(obj: Nullable<T>): (r: Outcome<Nullable<T>>)
    ensures r.Returned? <==> obj.Ref?
    ensures r.Returned? ==> r.value == obj
    ensures r.Thrown? ==> r.exception == NullPointerException(NON_NULL_REQUIRED)
  {
    if obj.Null? then Thrown(NullPointerException(NON_NULL_REQUIRED)) else Returned(obj)
  }

  /** Accepts a strictly positive pixel size and returns it unchanged. */
  function CheckDimension(dimension: int32): (r: Outcome<int32>)
    ensures r.Thrown? <==> dimension <= 0
    ensures r.Returned? ==> r.value == dimension
    ensures r.Thrown? ==> r.exception == IllegalStateException(DIMENSION_NOT_POSITIVE)
  {
    if dimension <= 0 then Thrown(IllegalStateException(DIMENSION_NOT_POSITIVE)) else Returned(dimension)
  }

  /** Accepts a strictly positive duration in milliseconds and returns it unchanged. */
  function CheckDuration(duration: int64): (r: Outcome<int64>)
    ensures r.Thrown? <==> duration <= 0
    ensures r.Returned? ==> r.value == duration
    ensures r.Thrown? ==> r.exception == IllegalStateException(DURATION_NOT_POSITIVE)
  {
    if duration <= 0 then Thrown(IllegalStateException(DURATION_NOT_POSITIVE)) else Returned(duration)
  }

  /** Checking an accepted duration again accepts it again, unchanged. */
  lemma CheckDurationIdempotent(duration: int64)
    requires CheckDuration(duration).Returned?
    ensures CheckDuration(CheckDuration(duration).value) == CheckDuration(duration)
  {
  }
}

/** `com.dewarder.camerabutton.Constraints`: the same three guards in the earlier
    library package. */
module DewarderConstraints {
  import opened Java

  const NON_NULL_REQUIRED := "Non-null object required"
  const DIMENSION_NOT_POSITIVE := "Dimension should be greater than 0"
  const DURATION_NOT_POSITIVE := "Duration should be greater than 0"

  /** Returns `obj` itself unless it is null, which throws. */
  function CheckNonNull<T>(obj: Nullable<T>): (r: Outcome<Nullable<T>>)
    ensures r.Returned? <==> obj.Ref?
    ensures r.Returned? ==> r.value == obj
    ensures r.Thrown? ==> r.exception == NullPointerException(NON_NULL_REQUIRED)
  {
    if obj.Null? then Thrown(NullPointerException(NON_NULL_REQUIRED)) else Returned(obj)
  }

  /** Accepts a strictly positive pixel size and returns it unchanged. */
  function CheckDimension(dimension: int32): (r: Outcome<int32>)
    ensures r.Thrown? <==> dimension <= 0
    ensures r.Returned? ==> r.value == dimension
    ensures r.Thrown? ==> r.exception == IllegalStateException(DIMENSION_NOT_POSITIVE)
  {
    if dimension <= 0 then Thrown(IllegalStateException(DIMENSION_NOT_POSITIVE)) else Returned(dimension)
  }

  /** Accepts a strictly positive duration in milliseconds and returns it unchanged. */
  function CheckDuration(duration: int64): (r: Outcome<int64>)
    ensures r.Thrown? <==> duration <= 0
    ensures r.Returned? ==> r.value == duration
    ensures r.Thrown? ==> r.exception == IllegalStateException(DURATION_NOT_POSITIVE)
  {
    if duration <= 0 then Thrown(IllegalStateException(DURATION_NOT_POSITIVE)) else Returned(duration)
  }
}

/** `com.dewarder.camerabutton.Objects` of the prototype application. */
module PrototypeObjects {
  import opened Java

  const NON_NULL_REQUIRED := "Non-null object required"

  /** Returns the same reference unless it is null, which throws; so a returned
      value is never null. */
  function RequireNonNull<T>(obj: Nullable<T>): (r: Outcome<Nullable<T>>)
    ensures r.Returned? <==> obj.Ref?
    ensures r.Returned? ==> r.value == obj && r.value.Ref?
    ensures r.Thrown? ==> r.exception == NullPointerException(NON_NULL_REQUIRED)
  {
    if obj.Null? then Thrown(NullPointerException(NON_NULL_REQUIRED)) else Returned(obj)
  }

  /** Applying the guard to what it returned gives the same outcome again. */
  lemma RequireNonNullIdempotent<T>(obj: Nullable<T>)
    requires RequireNonNull(obj).Returned?
    ensures RequireNonNull(RequireNonNull(obj).value) == RequireNonNull(obj)
  {
  }
}
