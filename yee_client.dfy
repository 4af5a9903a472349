/**
 * The job queue of the newest client revision (class YeePHP): job
 * construction, the fluent command builders, `commit` against a device
 * oracle, and the synchronous `getProp` read.
 */
module YeeClient {
  import opened Protocol
  import opened YeeParams

  /**
   * The shape of YeePHP's queue: the job at position k has id k, an allowed
   * method and no null parameter.
   */
  predicate IsQueue(jobs: seq<Job>) {
    forall k :: 0 <= k < |jobs| ==>
      && jobs[k].id == k
      && jobs[k].methodName in AllowedMethods
      && NoNulls(jobs[k].params)
  }

  /**
   * `createJobArray`: reject a method outside the allow-list; otherwise the
   * id is the number of jobs already queued and null parameters are dropped.
   */
  function JobArray(queued: nat, methodName: string, params: seq<Value>): (r: Result<Job, Error>)
    ensures r.Failure? <==> methodName !in AllowedMethods
    ensures r.Failure? ==> r.error == InvalidMethod(methodName)
    ensures r.Success? ==>
              && r.value.id == queued
              && r.value.methodName == methodName
              && r.value.params == FilterNulls(params)
  {
    if methodName !in AllowedMethods then Failure(InvalidMethod(methodName))
    else Success(Job(if queued != 0 then queued else 0, methodName, FilterNulls(params)))
  }

  /** The reply carries a first `result` element and no `error` key. */
  predicate HasFirstResult(line: Line) {
    line.Received? && !line.hasError && line.result.Some? && |line.result.value| > 0
  }

  /**
   * The decode step of `makeRequest`: `result[0]` of a reply that has a
   * `result` key and no `error` key, otherwise PHP `null`.
   */
  function Decode(line: Line): Value {
    match line
    case NoLine => Null
    case Received(hasError, result) =>
      if !hasError && result.Some? then
        if |result.value| > 0 then Str(result.value[0]) else Null
      else Null
  }

  /**
   * `commit`'s per-job test `!empty($res) || is_null($res)`. A job fails only
   * when the device answered without an error and its first result is `""`
   * or `"0"`; an error reply decodes to null and so counts as success.
   */
  predicate JobSucceeded(line: Line)
    ensures JobSucceeded(line) <==>
              !(HasFirstResult(line) && line.result.value[0] in ["", "0"])
  {
    var d := Decode(line);
    Truthy(d) || d.Null?
  }

  /** `getProp`'s `if (!$res) $res = '';`: the decoded string, or `''` when null or falsy. */
  function PropString(d: Value): string
    requires d.Null? || d.Str?
  {
    if !Truthy(d) then "" else d.s
  }

  class YeePHP {
    var lightIP: string
    var lightPort: int
    var jobs: seq<Job>

    predicate Valid()
      reads this
    {
      IsQueue(jobs)
    }

    constructor (ip: string, port: int)
      ensures Valid()
      ensures lightIP == ip && lightPort == port && jobs == []
    {
      lightIP := ip;
      lightPort := port;
      jobs := [];
    }

    /**
     * `__construct`: the address must pass the IP validator and the
     * connection must open; `ipIsValid` and `connects` are their verdicts.
     */
    static method Open(ip: string, port: int, ipIsValid: bool, connects: bool)
      returns (r: Result<YeePHP, Error>)
      ensures !ipIsValid ==> r == Failure(InvalidIp(ip))
      ensures ipIsValid && !connects ==> r == Failure(ConnectFailed)
      ensures ipIsValid && connects ==>
                && r.Success? && fresh(r.value) && r.value.Valid()
                && r.value.lightIP == ip && r.value.lightPort == port && r.value.jobs == []
    {
      if !ipIsValid {
        return Failure(InvalidIp(ip));
      }
      var light := new YeePHP(ip, port);
      if !connects {
        return Failure(ConnectFailed);
      }
      r := Success(light);
    }

    /** `createJob`: append the job built by `createJobArray`, or throw and leave the queue alone. */
    method CreateJob(methodName: string, params: seq<Value>) returns (o: Outcome<Error>)
      requires Valid()
      modifies this`jobs
      ensures Valid()
      ensures o.Fail? <==> methodName !in AllowedMethods
      ensures o.Fail? ==> o.error == InvalidMethod(methodName) && jobs == old(jobs)
      ensures o.Pass? ==> jobs == old(jobs) + [Job(|old(jobs)|, methodName, FilterNulls(params))]
    {
      var job := JobArray(|jobs|, methodName, params);
      if job.Failure? {
        return Fail(job.error);
      }
      jobs := jobs + [job.value];
      o := Pass;
    }

    method Toggle() returns (self: YeePHP)
      requires Valid()
      modifies this`jobs
      ensures Valid() && self == this
      ensures jobs == old(jobs) + [Job(|old(jobs)|, "toggle", [])]
    {
      var o := CreateJob("toggle", []);
      self := this;
    }

    /** `setColor`: queue the colour command, or throw and queue nothing. */
    method SetColor(color: int, opts: ColorOptions) returns (r: Result<YeePHP, Error>)
      requires Valid()
      modifies this`jobs
      ensures Valid()
      ensures SetColorRequest(color, opts).Failure? ==>
                r == Failure(SetColorRequest(color, opts).error) && jobs == old(jobs)
      ensures SetColorRequest(color, opts).Success? ==>
                var q := SetColorRequest(color, opts).value;
                r == Success(this) && jobs == old(jobs) + [Job(|old(jobs)|, q.methodName, q.params)]
    {
      var q := SetColorRequest(color, opts);
      if q.Failure? {
        return Failure(q.error);
      }
      var o := CreateJob(q.value.methodName, q.value.params);
      FilterNullsKeepsNonNull(q.value.params);
      r := Success(this);
    }

    /** `setBrightness`: queue `set_bright` with the clamped amount, a smooth effect and 500 ms. */
    method SetBrightness(amount: int) returns (self: YeePHP)
      requires Valid()
      modifies this`jobs
      ensures Valid() && self == this
      ensures jobs == old(jobs) + [Job(|old(jobs)|, "set_bright", [Int(ClampPercent(amount)), Str("smooth"), Int(500)])]
    {
      var a := amount;
      if a > 100 {
        a := 100;
      } else if a < 0 {
        a := 0;
      }
      var params := [Int(a), Str("smooth"), Int(500)];
      var o := CreateJob("set_bright", params);
      FilterNullsKeepsNonNull(params);
      self := this;
    }

    method SetName(name: string) returns (self: YeePHP)
      requires Valid()
      modifies this`jobs
      ensures Valid() && self == this
      ensures jobs == old(jobs) + [Job(|old(jobs)|, "set_name", [Str(name)])]
    {
      var o := CreateJob("set_name", [Str(name)]);
      FilterNullsKeepsNonNull([Str(name)]);
      self := this;
    }

    /**
     * `setPower`: its guard never fires (see `PowerGuardFires`), so any
     * string is queued with the default effect and delay.
     */
    method SetPower(power: string) returns (self: YeePHP)
      requires Valid()
      modifies this`jobs
      ensures Valid() && self == this
      ensures jobs == old(jobs) +
                [Job(|old(jobs)|, "set_power", [Str(power), Str(DefaultFadeEffect), Int(DefaultFadeDelay)])]
    {
      // The guard that should reject anything but "on"/"off" is never true.
      assert !PowerGuardFires(power);
      var params := [Str(power), Str(DefaultFadeEffect), Int(DefaultFadeDelay)];
      var o := CreateJob("set_power", params);
      FilterNullsKeepsNonNull(params);
      self := this;
    }

    method SetDefault() returns (self: YeePHP)
      requires Valid()
      modifies this`jobs
      ensures Valid() && self == this
      ensures jobs == old(jobs) + [Job(|old(jobs)|, "set_default", [])]
    {
      var o := CreateJob("set_default", []);
      self := this;
    }

    /**
     * `commit`: send the jobs in order, one reply each. The result is true
     * iff some job succeeded (so false for an empty queue), and the queue is
     * emptied, also when the device dropped the connection (its replies are
     * then missing lines). An `Offline` reply, a liveness check that throws,
     * skips the reset and the queue is kept.
     */
    method Commit(replies: seq<Reply>) returns (r: Result<bool, Error>, sent: seq<Job>)
      requires Valid()
      requires |replies| == |jobs|
      modifies this`jobs
      ensures Valid()
      ensures AllRead(replies) ==>
                && r == Success(exists i :: 0 <= i < |replies| && JobSucceeded(replies[i].line))
                && sent == old(jobs)
                && jobs == []
      ensures !AllRead(replies) ==>
                && r == Failure(DeviceOffline)
                && sent == old(jobs)[..FirstOffline(replies)]
                && jobs == old(jobs)
    {
      var success := false;
      sent := [];
      var i := 0;
      while i < |jobs|
        invariant 0 <= i <= |jobs|
        invariant sent == jobs[..i]
        invariant forall j :: 0 <= j < i ==> replies[j].Read?
        invariant success <==> exists j :: 0 <= j < i && JobSucceeded(replies[j].line)
      {
        if replies[i].Offline? {
          assert FirstOffline(replies) == i;
          return Failure(DeviceOffline), sent;
        }
        sent := sent + [jobs[i]];
        var res := Decode(replies[i].line);
        if Truthy(res) || res.Null? {
          success := true;
        }
        i := i + 1;
      }
      assert sent == jobs;
      jobs := [];
      r := Success(success);
    }

    /**
     * `getProp`: reject an unknown prop; otherwise send one `get_prop` job
     * (id = current queue length) straight away, outside the queue, and
     * return its first result or `''`.
     */
    method GetProp(prop: string, reply: Reply) returns (r: Result<string, Error>, sent: seq<Job>)
      requires Valid()
      ensures prop !in AllowedProps ==> r == Failure(InvalidProp(prop)) && sent == []
      ensures prop in AllowedProps && reply.Offline? ==> r == Failure(DeviceOffline) && sent == []
      ensures prop in AllowedProps && reply.Read? ==>
                && sent == [Job(|jobs|, "get_prop", [Str(prop)])]
                && r.Success?
                && (HasFirstResult(reply.line) && reply.line.result.value[0] !in ["", "0"] ==>
                      r.value == reply.line.result.value[0])
                && (HasFirstResult(reply.line) && reply.line.result.value[0] in ["", "0"] ==>
                      r.value == "")
                && (!HasFirstResult(reply.line) ==> r.value == "")
    {
      if prop !in AllowedProps {
        return Failure(InvalidProp(prop)), [];
      }
      var job := JobArray(|jobs|, "get_prop", [Str(prop)]);
      FilterNullsKeepsNonNull([Str(prop)]);
      if reply.Offline? {
        return Failure(DeviceOffline), [];
      }
      sent := [job.value];
      var res := Decode(reply.line);
      r := Success(PropString(res));
    }
  }

  /**
   * The chained usage `setColor(0xFF8888)->setBrightness(100)->commit()`
   * against a device that answers each request with `["ok"]`: the commit
   * reports success, both jobs go out in order with ids 0 and 1, and the
   * queue is empty afterwards.
   */
  method ColorThenBrightness(light: YeePHP) returns (ok: Result<bool, Error>, sent: seq<Job>)
    requires light.Valid() && light.jobs == []
    modifies light
    ensures light.Valid() && light.jobs == []
    ensures ok == Success(true)
    ensures sent == [Job(0, "set_rgb", [Int(0xFF8888), Str("smooth"), Int(300)]),
                     Job(1, "set_bright", [Int(100), Str("smooth"), Int(500)])]
  {
    var opts := ColorOptions(None, None, None, None);
    var r := light.SetColor(0xFF8888, opts);
    var self := light.SetBrightness(100);
    var okLine := Read(Received(false, Some(["ok"])));
    var replies := [okLine, okLine];
    assert JobSucceeded(replies[0].line);
    ok, sent := light.Commit(replies);
  }
}
