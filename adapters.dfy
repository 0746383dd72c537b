/** The request adapters behind the four routes of a CRUD resource: which
    capability method each calls and with which arguments, taken from the
    request path (the id) and the request body (the payload). */
module Adapters {
  import opened Http

  const I32Min: int := -0x8000_0000
  const I32Max: int := 0x7FFF_FFFF

  /** The text after the last '/' of `path`, or all of `path` when it has no '/'
      (`path.split('/').last()`, which always yields a segment). */
  function LastSegment(path: string): (seg: string)
    ensures |seg| <= |path| && seg == path[|path| - |seg|..]
    ensures '/' !in seg
    ensures |seg| < |path| ==> path[|path| - |seg| - 1] == '/'
  {
    if path == [] || path[|path| - 1] == '/' then []
    else
      var rest := LastSegment(path[..|path| - 1]);
      assert path[|path| - |rest| - 1..] == path[..|path| - 1][|path| - 1 - |rest|..] + [path[|path| - 1]];
      rest + [path[|path| - 1]]
  }

  /** Splitting `prefix + "/" + seg` at its last '/' gives back `seg`. */
  lemma {:induction false} LastSegmentOfJoin(prefix: string, seg: string)
    requires '/' !in seg
    ensures LastSegment(prefix + "/" + seg) == seg
  {
    if seg != [] {
      var path := prefix + "/" + seg;
      var init := seg[..|seg| - 1];
      assert path[..|path| - 1] == prefix + "/" + init;
      LastSegmentOfJoin(prefix, init);
      assert seg == init + [seg[|seg| - 1]];
    }
  }

  predicate IsDigit(c: char) {
    '0' <= c <= '9'
  }

  predicate AllDigits(s: string) {
    forall i :: 0 <= i < |s| ==> IsDigit(s[i])
  }

  /** The value of a string of decimal digits, most significant first. */
  function DigitsValue(ds: string): nat
    requires AllDigits(ds)
  {
    if ds == [] then 0
    else DigitsValue(ds[..|ds| - 1]) * 10 + (ds[|ds| - 1] as int - '0' as int)
  }

  /** `i32::from_str`: an optional '+' or '-' followed by one or more decimal
      digits whose value lies in the 32-bit signed range; anything else fails. */
  function ParseI32(s: string): (r: Option<int>)
    ensures r.Some? ==> I32Min <= r.value <= I32Max
    ensures r.Some? ==> s != [] && forall i :: 0 <= i < |s| ==> IsDigit(s[i]) || (i == 0 && s[i] in "+-")
    ensures r.Some? && s[0] == '-' ==> r.value <= 0
  {
    if s == [] then None
    else
      var digits := if s[0] == '+' || s[0] == '-' then s[1..] else s;
      if digits == [] || !AllDigits(digits) then None
      else
        var magnitude: int := DigitsValue(digits);
        var v := if s[0] == '-' then -magnitude else magnitude;
        if I32Min <= v <= I32Max then Some(v) else None
  }

  /** The decimal digits of `n`, without leading zeros. */
  function Decimal(n: nat): (s: string)
    ensures s != [] && AllDigits(s)
  {
    var d := [(n % 10 + '0' as int) as char];
    if n < 10 then d else Decimal(n / 10) + d
  }

  /** How a 32-bit id is written in a path: `Decimal`, with a '-' for a negative one. */
  function FormatI32(n: int): string {
    if n < 0 then "-" + Decimal(-n) else Decimal(n)
  }

  lemma {:induction false} DecimalValue(n: nat)
    ensures DigitsValue(Decimal(n)) == n
  {
    var d := [(n % 10 + '0' as int) as char];
    if n >= 10 {
      DecimalValue(n / 10);
      var s := Decimal(n / 10) + d;
      assert s[..|s| - 1] == Decimal(n / 10);
    }
  }

  /** Parsing the written form of an id gives the id back. */
  lemma ParseFormatRoundTrip(n: int)
    requires I32Min <= n <= I32Max
    ensures ParseI32(FormatI32(n)) == Some(n)
  {
    var s := FormatI32(n);
    if n < 0 {
      var digits := Decimal(-n);
      DecimalValue(-n);
      assert s[0] == '-' && s[1..] == digits;
      assert ParseI32(s) == Some(0 - DigitsValue(digits) as int);
    } else {
      DecimalValue(n);
      assert IsDigit(s[0]);
      assert ParseI32(s) == Some(DigitsValue(s));
    }
  }

  /** A written id never contains a '/', so it is a whole path segment. */
  lemma FormatI32NoSlash(n: int)
    ensures '/' !in FormatI32(n) && FormatI32(n) != []
  {
  }

  /** The payload handed to `create` and `update`: the body text, or the empty
      string when reading the body failed (`unwrap_or_default`). */
  function Payload(body: Option<string>): (data: string)
    ensures body.Some? ==> data == body.value
    ensures body.None? ==> data == ""
  {
    if body.Some? then body.value else ""
  }

  /** The four capability methods of a resource. */
  datatype Op = OpGet | OpCreate | OpUpdate | OpDelete

  /** One call of a capability method, with its arguments. */
  datatype Call =
    | CallGet(id: int)
    | CallCreate(data: string)
    | CallUpdate(id: int, data: string)
    | CallDelete(id: int)

  predicate Performs(op: Op, call: Call) {
    match op
    case OpGet => call.CallGet?
    case OpCreate => call.CallCreate?
    case OpUpdate => call.CallUpdate?
    case OpDelete => call.CallDelete?
  }

  /** The capability call the adapter for `op` makes for `req`; `None` when the
      id segment does not parse, where the source panics on `unwrap`. */
  function Adapt(op: Op, req: Request): (call: Option<Call>)
    ensures call.Some? ==> Performs(op, call.value)
    ensures op == OpCreate ==> call == Some(CallCreate(Payload(req.body)))
    ensures op != OpCreate ==> (call.Some? <==> ParseI32(LastSegment(req.path)).Some?)
    ensures call.Some? && !call.value.CallCreate? ==> call.value.id == ParseI32(LastSegment(req.path)).value
    ensures call.Some? && call.value.CallUpdate? ==> call.value.data == Payload(req.body)
  {
    if op == OpCreate then Some(CallCreate(Payload(req.body)))
    else
      match ParseI32(LastSegment(req.path))
      case None => None
      case Some(id) => Some(IdCall(op, id, Payload(req.body)))
  }

  /** The call an id adapter makes once it has the id; `update` also gets the payload. */
  function IdCall(op: Op, id: int, data: string): (call: Call)
    requires op != OpCreate
    ensures Performs(op, call) && call.id == id
  {
    match op
    case OpGet => CallGet(id)
    case OpUpdate => CallUpdate(id, data)
    case OpDelete => CallDelete(id)
  }

  /** When the id segment parses, each id adapter calls its method with that id. */
  lemma AdaptWithId(op: Op, req: Request, id: int)
    requires op != OpCreate
    requires ParseI32(LastSegment(req.path)) == Some(id)
    ensures Adapt(op, req) == Some(IdCall(op, id, Payload(req.body)))
  {
  }
}
