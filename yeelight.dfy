/**
 * The first revision (class Yeelight): the same queue as Light without the
 * remembered colour and brightness. Ids start at 1, `commit` is true only
 * when every job succeeded, and the queue is never cleared.
 */
module YeelightClient {
  import opened Protocol
  import opened LegacyQueue

  class Yeelight {
    var lightIP: string
    var lightPort: int
    var jobs: seq<Job>

    predicate Valid()
      reads this
    {
      IsLegacyQueue(jobs)
    }

    constructor (ip: string, port: int)
      ensures Valid()
      ensures lightIP == ip && lightPort == port && jobs == []
    {
      lightIP := ip;
      lightPort := port;
      jobs := [];
    }

    /**
     * `__construct`: the address must pass the IP validator and the
     * connection must open; `ipIsValid` and `connects` are their verdicts.
     */
    static method Open(ip: string, port: int, ipIsValid: bool, connects: bool)
      returns (r: Result<Yeelight, Error>)
      ensures !ipIsValid ==> r == Failure(InvalidIp(ip))
      ensures ipIsValid && !connects ==> r == Failure(ConnectFailed)
      ensures ipIsValid && connects ==>
                && r.Success? && fresh(r.value) && r.value.Valid()
                && r.value.lightIP == ip && r.value.lightPort == port && r.value.jobs == []
    {
      if !ipIsValid {
        return Failure(InvalidIp(ip));
      }
      var light := new Yeelight(ip, port);
      if !connects {
        return Failure(ConnectFailed);
      }
      r := Success(light);
    }

    /** `createJob`: throw for a method outside the allow-list, else append with id = count + 1. */
    method CreateJob(methodName: string, params: seq<Value>) returns (o: Outcome<Error>)
      requires Valid()
      modifies this`jobs
      ensures Valid()
      ensures o.Fail? <==> methodName !in LegacyAllowedMethods
      ensures o.Fail? ==> o.error == InvalidMethod(methodName) && jobs == old(jobs)
      ensures o.Pass? ==> jobs == old(jobs) + [Job(|old(jobs)| + 1, methodName, params)]
    {
      if methodName !in LegacyAllowedMethods {
        return Fail(InvalidMethod(methodName));
      }
      jobs := jobs + [Job(|jobs| + 1, methodName, params)];
      o := Pass;
    }

    /** `setColor`: queue `set_rgb` with the colour as given (no range check), smooth, 500 ms. */
    method SetColor(hexColor: int) returns (self: Yeelight)
      requires Valid()
      modifies this`jobs
      ensures Valid() && self == this
      ensures jobs == old(jobs) + [Job(|old(jobs)| + 1, "set_rgb", [Int(hexColor), Str("smooth"), Int(500)])]
    {
      var o := CreateJob("set_rgb", [Int(hexColor), Str("smooth"), Int(500)]);
      self := this;
    }

    /** `setBrightness`: queue `set_bright` with the amount as given (no clamping), smooth, 500 ms. */
    method SetBrightness(amount: int) returns (self: Yeelight)
      requires Valid()
      modifies this`jobs
      ensures Valid() && self == this
      ensures jobs == old(jobs) + [Job(|old(jobs)| + 1, "set_bright", [Int(amount), Str("smooth"), Int(500)])]
    {
      var o := CreateJob("set_bright", [Int(amount), Str("smooth"), Int(500)]);
      self := this;
    }

    /**
     * `commit`: the conjunction of the per-job verdicts, in queue order; true
     * for an empty queue. Nothing is removed from the queue.
     */
    method Commit(replies: seq<Reply>) returns (r: Result<bool, Error>, sent: seq<Job>)
      requires |replies| == |jobs|
      ensures AllRead(replies) ==>
                && r == Success(forall i :: 0 <= i < |replies| ==>
                                  !(replies[i].line.Received? && replies[i].line.hasError))
                && sent == jobs
      ensures !AllRead(replies) ==>
                r == Failure(DeviceOffline) && sent == jobs[..FirstOffline(replies)]
    {
      var success := true;
      sent := [];
      var i := 0;
      while i < |jobs|
        invariant 0 <= i <= |jobs|
        invariant sent == jobs[..i]
        invariant forall j :: 0 <= j < i ==> replies[j].Read?
        invariant success <==> forall j :: 0 <= j < i ==> RequestSucceeded(replies[j].line)
      {
        if replies[i].Offline? {
          assert FirstOffline(replies) == i;
          return Failure(DeviceOffline), sent;
        }
        sent := sent + [jobs[i]];
        if !RequestSucceeded(replies[i].line) {
          success := false;
        }
        i := i + 1;
      }
      assert sent == jobs;
      r := Success(success);
    }
  }

  /**
   * Two commits in a row against a device that stays online: since the
   * queue is never cleared, the second sends exactly the jobs the first
   * sent, and a single reply carrying an `error` key makes a commit false.
   */
  method CommitTwice(light: Yeelight, first: seq<Reply>, second: seq<Reply>)
    returns (r1: Result<bool, Error>, sent1: seq<Job>, r2: Result<bool, Error>, sent2: seq<Job>)
    requires |first| == |light.jobs| && |second| == |light.jobs|
    requires AllRead(first) && AllRead(second)
    ensures sent1 == light.jobs && sent2 == sent1
    ensures (exists i :: 0 <= i < |first| && first[i].line.Received? && first[i].line.hasError) ==>
              r1 == Success(false)
  {
    r1, sent1 := light.Commit(first);
    r2, sent2 := light.Commit(second);
  }
}
