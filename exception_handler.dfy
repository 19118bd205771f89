/** `GlobalExceptionHandler`: the JSON error bodies the REST layer answers
    with when a request fails validation, an upload is too large, or a
    runtime exception escapes a controller. */
module ExceptionHandler {
  import opened Wrappers
  import opened Strings
  import opened Domain

  const BadRequest: int := 400
  const PayloadTooLarge: int := 413
  const InternalServerError: int := 500

  /** The body `{"success": false, "error": ...}`. */
  datatype ErrorBody = ErrorBody(success: bool, error: string)

  datatype ErrorReply = ErrorReply(status: int, body: ErrorBody)

  /** A binding-result field error: the field name and its default message,
      which may be null. */
  datatype FieldError = FieldError(field: string, defaultMessage: Option<string>)

  const ValidationFallback: string := "Validation failed"
  const OversizeMessage: string := "File size exceeds the maximum limit of 50MB"
  const RuntimeFallback: string := "An unexpected error occurred"
  const Separator: string := "; "

  /** How one field error is written: its field, a colon and its message. */
  function Render(e: FieldError): (r: string)
    ensures StartsWith(r, e.field + ": ")
    ensures r[|e.field| + 2..] == ValueOf(e.defaultMessage)
    ensures EndsWith(r, ValueOf(e.defaultMessage))
  {
    var r := e.field + ": " + ValueOf(e.defaultMessage);
    assert r[..|e.field| + 2] == e.field + ": ";
    assert r[|e.field| + 2..] == ValueOf(e.defaultMessage);
    r
  }

  /** The total length of some strings. */
  function TotalLength(parts: seq<string>): nat {
    if parts == [] then 0 else TotalLength(parts[..|parts| - 1]) + |parts[|parts| - 1]|
  }

  /** `reduce((a, b) -> a + "; " + b)` over a sequential stream: a left fold
      that is empty for no parts. */
  function Reduce(parts: seq<string>): (r: Option<string>)
    ensures r.None? <==> parts == []
    ensures r.Some? ==> StartsWith(r.value, parts[0]) && EndsWith(r.value, parts[|parts| - 1])
    ensures r.Some? ==> |r.value| == TotalLength(parts) + |Separator| * (|parts| - 1)
  {
    if parts == [] then None
    else if |parts| == 1 then Some(parts[0])
    else
      var n := |parts| - 1;
      var front := Reduce(parts[..n]).value;
      assert parts[..n][0] == parts[0];
      var r := front + Separator + parts[n];
      assert r[..|parts[0]|] == front[..|parts[0]|];
      assert r[|r| - |parts[n]|..] == parts[n];
      Some(r)
  }

  /** An independent reading of the join: the first part, then every later
      part with the separator in front of it. */
  function Prefixed(parts: seq<string>): string {
    if parts == [] then [] else Separator + parts[0] + Prefixed(parts[1..])
  }

  lemma {:induction false} PrefixedSnoc(parts: seq<string>, x: string)
    ensures Prefixed(parts + [x]) == Prefixed(parts) + Separator + x
  {
    if parts == [] {
      assert [x][1..] == [];
    } else {
      assert (parts + [x])[1..] == parts[1..] + [x];
      PrefixedSnoc(parts[1..], x);
    }
  }

  /** The fold joins the parts in order: the first one, and each later one
      after a separator. */
  lemma {:induction false} ReduceJoinsInOrder(parts: seq<string>)
    requires parts != []
    ensures Reduce(parts) == Some(parts[0] + Prefixed(parts[1..]))
  {
    var n := |parts| - 1;
    if n == 0 {
      assert Prefixed(parts[1..]) == [];
      assert parts[0] + [] == parts[0];
    } else {
      var front := parts[..n];
      ReduceJoinsInOrder(front);
      assert front[0] == parts[0];
      assert parts[1..] == front[1..] + [parts[n]];
      PrefixedSnoc(front[1..], parts[n]);
      assert Reduce(parts).value == Reduce(front).value + Separator + parts[n];
      assert Reduce(parts).value == parts[0] + (Prefixed(front[1..]) + Separator + parts[n]);
    }
  }

  /** `map(e -> e.getField() + ": " + e.getDefaultMessage())`: every field
      error rendered, in the order they are reported. */
  function RenderAll(errors: seq<FieldError>): (r: seq<string>)
    ensures |r| == |errors|
    ensures forall i :: 0 <= i < |errors| ==> r[i] == Render(errors[i])
  {
    seq(|errors|, i requires 0 <= i < |errors| => Render(errors[i]))
  }

  /** The validation message: the rendered field errors, joined by "; " in
      the order they are reported, or a fixed text when there are none. */
  function ValidationMessage(errors: seq<FieldError>): (m: string)
    ensures errors == [] ==> m == ValidationFallback
    ensures errors != [] ==> m == Reduce(RenderAll(errors)).value
  {
    Reduce(RenderAll(errors)).GetOr(ValidationFallback)
  }

  /** A single field error is reported on its own, as it is rendered. */
  lemma SingleFieldError(e: FieldError)
    ensures ValidationMessage([e]) == Render(e)
  {
    var rendered := RenderAll([e]);
    assert rendered == [Render(e)];
  }

  /** Two field errors are joined with the separator between them. */
  lemma TwoFieldErrors(a: FieldError, b: FieldError)
    ensures ValidationMessage([a, b]) == Render(a) + "; " + Render(b)
  {
    var rendered := RenderAll([a, b]);
    assert rendered == [Render(a), Render(b)];
    assert rendered[..1] == [Render(a)];
    assert Reduce(rendered).value == Reduce([Render(a)]).value + Separator + Render(b);
  }

  /** The message of a failed validation begins with the first field error
      and ends with the last. */
  lemma ValidationMessageBounds(errors: seq<FieldError>)
    requires errors != []
    ensures StartsWith(ValidationMessage(errors), errors[0].field + ": ")
    ensures EndsWith(ValidationMessage(errors), ValueOf(errors[|errors| - 1].defaultMessage))
  {
    var rendered := RenderAll(errors);
    var m := Reduce(rendered).value;
    var e0 := errors[0];
    var en := errors[|errors| - 1];
    assert rendered[0] == Render(e0);
    assert rendered[|rendered| - 1] == Render(en);
    StartsWithTrans(m, Render(e0), e0.field + ": ");
    EndsWithTrans(m, Render(en), ValueOf(en.defaultMessage));
  }

  /** `handleValidation`. */
  function HandleValidation(errors: seq<FieldError>): (r: ErrorReply)
    ensures r.status == BadRequest && !r.body.success
    ensures r.body.error == ValidationMessage(errors)
  {
    ErrorReply(BadRequest, ErrorBody(false, ValidationMessage(errors)))
  }

  /** `handleMaxSize`: the limit is stated, whatever the exception says. */
  function HandleMaxSize(e: Exception): (r: ErrorReply)
    ensures r.status == PayloadTooLarge && !r.body.success
    ensures r.body.error == OversizeMessage
  {
    ErrorReply(PayloadTooLarge, ErrorBody(false, OversizeMessage))
  }

  /** `handleRuntime`: the exception's message, or a fixed text when it has
      none. */
  function HandleRuntime(e: Exception): (r: ErrorReply)
    ensures r.status == InternalServerError && !r.body.success
    ensures e.message.Some? ==> r.body.error == e.message.value
    ensures e.message.None? ==> r.body.error == RuntimeFallback
  {
    ErrorReply(InternalServerError, ErrorBody(false, e.message.GetOr(RuntimeFallback)))
  }
}
