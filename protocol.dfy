/**
 * Data shared by the three revisions of the Yeelight LAN client: the PHP
 * values a job can carry, the job record itself, what the device's side of
 * the socket can produce for one request, and the errors (PHP exceptions)
 * the client raises.
 */
module Protocol {

  datatype Option<+T> = None | Some(value: T) {
    function GetOr(default: T): T {
      match this
      case Some(v) => v
      case None => default
    }
  }

  datatype Result<+T, +E> = Success(value: T) | Failure(error: E)

  /** The outcome of a `void` PHP method that may throw. */
  datatype Outcome<+E> = Pass | Fail(error: E)

  /** A PHP scalar as it can appear in a job's parameter list. */
  datatype Value = Null | Bool(b: bool) | Int(i: int) | Str(s: string)

  /** PHP truthiness: `empty($v)` and `!$v` are both `!Truthy(v)`. */
  predicate Truthy(v: Value) {
    match v
    case Null => false
    case Bool(b) => b
    case Int(i) => i != 0
    case Str(s) => s != "" && s != "0"
  }

  /** PHP's `!` operator: always yields a boolean. */
  function Not(v: Value): Value {
    Bool(!Truthy(v))
  }

  /** PHP's `===`: same type and same value. */
  predicate Identical(a: Value, b: Value) {
    a == b
  }

  /** One queued command: the `['id' => ..., 'method' => ..., 'params' => ...]` array. */
  datatype Job = Job(id: int, methodName: string, params: seq<Value>)

  /**
   * What `fgets` produced after a request was written: no (or a falsy) line,
   * or a line that decodes to a JSON object, which may carry an `error` key
   * and may carry a `result` list.
   */
  datatype Line = NoLine | Received(hasError: bool, result: Option<seq<string>>)

  /** The device oracle for one request: the socket was found closed before writing, or a line was read. */
  datatype Reply = Offline | Read(line: Line)

  /** The exceptions the client throws. */
  datatype Error =
    | InvalidIp(ip: string)
    | ConnectFailed
    | InvalidMethod(methodName: string)
    | InvalidProp(prop: string)
    | InvalidColorType
    | InvalidColorValue(value: int)
    | InvalidEffect
    | InvalidDelay(delay: int)
    | DeviceOffline

  function Min(a: int, b: int): int { if a <= b then a else b }
  function Max(a: int, b: int): int { if a >= b then a else b }

  /**
   * The `> 100 then 100, < 0 then 0` clamp used for brightness (and for the
   * HSV saturation in the newest revision).
   */
  function ClampPercent(amount: int): (r: int)
    ensures 0 <= r <= 100
    ensures r == Max(0, Min(100, amount))
    ensures 0 <= amount <= 100 ==> r == amount
  {
    if amount > 100 then 100
    else if amount < 0 then 0
    else amount
  }

  predicate NoNulls(params: seq<Value>) {
    forall k :: 0 <= k < |params| ==> !params[k].Null?
  }

  /** `array_filter($params, fn ($value) => !is_null($value))`, read as a list. */
  function FilterNulls(params: seq<Value>): (kept: seq<Value>)
    ensures NoNulls(kept)
    ensures |kept| <= |params|
    ensures forall v :: v in kept <==> v in params && !v.Null?
  {
    if params == [] then []
    else if params[0].Null? then FilterNulls(params[1..])
    else [params[0]] + FilterNulls(params[1..])
  }

  /** Filtering distributes over concatenation, so the kept values stay in their order. */
  lemma {:induction false} FilterNullsAppend(a: seq<Value>, b: seq<Value>)
    ensures FilterNulls(a + b) == FilterNulls(a) + FilterNulls(b)
  {
    if a == [] {
      assert a + b == b;
    } else {
      assert (a + b)[0] == a[0];
      assert (a + b)[1..] == a[1..] + b;
      FilterNullsAppend(a[1..], b);
    }
  }

  /** A list without nulls is left exactly as it is. */
  lemma {:induction false} FilterNullsKeepsNonNull(params: seq<Value>)
    requires NoNulls(params)
    ensures FilterNulls(params) == params
  {
    if params != [] {
      FilterNullsKeepsNonNull(params[1..]);
    }
  }

  /** Dropping the nulls loses exactly the nulls: the kept list is as long as the non-null count. */
  function NonNullCount(params: seq<Value>): nat {
    if params == [] then 0
    else (if params[0].Null? then 0 else 1) + NonNullCount(params[1..])
  }

  lemma {:induction false} FilterNullsLength(params: seq<Value>)
    ensures |FilterNulls(params)| == NonNullCount(params)
    ensures NoNulls(params) ==> NonNullCount(params) == |params|
  {
    if params != [] {
      FilterNullsLength(params[1..]);
    }
  }

  predicate AllRead(replies: seq<Reply>) {
    forall j :: 0 <= j < |replies| ==> replies[j].Read?
  }

  /** The position of the first request for which the socket was found closed, or `|replies|`. */
  function FirstOffline(replies: seq<Reply>): (k: nat)
    ensures k <= |replies|
    ensures forall j :: 0 <= j < k ==> replies[j].Read?
    ensures k < |replies| ==> replies[k].Offline?
    ensures k == |replies| <==> AllRead(replies)
  {
    if replies == [] then 0
    else if replies[0].Offline? then 0
    else 1 + FirstOffline(replies[1..])
  }
}
