/**
 * The oldest revision with a constructor that remembers a colour and a
 * brightness (class Light): ids start at 1, `commit` is true only when every
 * job succeeded, and the queue is never cleared.
 */
module LightClient {
  import opened Protocol
  import opened LegacyQueue

  class Light {
    var lightIP: string
    var lightPort: int
    var lightHexColor: int
    var lightBrightness: int
    var jobs: seq<Job>

    predicate Valid()
      reads this
    {
      IsLegacyQueue(jobs) && 0 <= lightBrightness <= 100
    }

    /** Stores the address, the colour and the brightness clamped into [0,100]. */
    constructor (ip: string, port: int, lightColor: int, brightness: int)
      ensures Valid()
      ensures lightIP == ip && lightPort == port && lightHexColor == lightColor && jobs == []
      ensures lightBrightness == Max(0, Min(100, brightness))
    {
      lightIP := ip;
      lightPort := port;
      lightHexColor := lightColor;
      if brightness > 100 {
        lightBrightness := 100;
      } else if brightness < 0 {
        lightBrightness := 0;
      } else {
        lightBrightness := brightness;
      }
      jobs := [];
    }

    /**
     * `__construct`: the address must pass the IP validator and the
     * connection must open; `ipIsValid` and `connects` are their verdicts.
     */
    static method Open(ip: string, port: int, lightColor: int, brightness: int, ipIsValid: bool, connects: bool)
      returns (r: Result<Light, Error>)
      ensures !ipIsValid ==> r == Failure(InvalidIp(ip))
      ensures ipIsValid && !connects ==> r == Failure(ConnectFailed)
      ensures ipIsValid && connects ==>
                && r.Success? && fresh(r.value) && r.value.Valid()
                && r.value.lightIP == ip && r.value.lightPort == port
                && r.value.lightHexColor == lightColor
                && r.value.lightBrightness == Max(0, Min(100, brightness))
                && r.value.jobs == []
    {
      if !ipIsValid {
        return Failure(InvalidIp(ip));
      }
      var light := new Light(ip, port, lightColor, brightness);
      if !connects {
        return Failure(ConnectFailed);
      }
      r := Success(light);
    }

    /** `createJob`: throw for a method outside the allow-list, else append with id = count + 1. */
    method CreateJob(methodName: string, params: seq<Value>) returns (o: Outcome<Error>)
      requires Valid()
      modifies this`jobs
      ensures Valid()
      ensures o.Fail? <==> methodName !in LegacyAllowedMethods
      ensures o.Fail? ==> o.error == InvalidMethod(methodName) && jobs == old(jobs)
      ensures o.Pass? ==> jobs == old(jobs) + [Job(|old(jobs)| + 1, methodName, params)]
    {
      if methodName !in LegacyAllowedMethods {
        return Fail(InvalidMethod(methodName));
      }
      jobs := jobs + [Job(|jobs| + 1, methodName, params)];
      o := Pass;
    }

    /** `setColor`: queue `set_rgb` with the colour as given (no range check), smooth, 500 ms. */
    method SetColor(hexColor: int) returns (self: Light)
      requires Valid()
      modifies this`jobs
      ensures Valid() && self == this
      ensures jobs == old(jobs) + [Job(|old(jobs)| + 1, "set_rgb", [Int(hexColor), Str("smooth"), Int(500)])]
    {
      var o := CreateJob("set_rgb", [Int(hexColor), Str("smooth"), Int(500)]);
      self := this;
    }

    /** `setBrightness`: queue `set_bright` with the amount as given (no clamping), smooth, 500 ms. */
    method SetBrightness(amount: int) returns (self: Light)
      requires Valid()
      modifies this`jobs
      ensures Valid() && self == this
      ensures jobs == old(jobs) + [Job(|old(jobs)| + 1, "set_bright", [Int(amount), Str("smooth"), Int(500)])]
    {
      var o := CreateJob("set_bright", [Int(amount), Str("smooth"), Int(500)]);
      self := this;
    }

    /**
     * `commit`: send every job in order, one reply each, carrying on after a
     * failed one; true iff every job succeeded (so true for an empty queue).
     * The queue is left as it is, so a later commit sends it all again.
     */
    method Commit(replies: seq<Reply>) returns (r: Result<bool, Error>, sent: seq<Job>)
      requires |replies| == |jobs|
      ensures AllRead(replies) ==>
                && r == Success(forall i :: 0 <= i < |replies| ==>
                                  !(replies[i].line.Received? && replies[i].line.hasError))
                && sent == jobs
      ensures !AllRead(replies) ==>
                r == Failure(DeviceOffline) && sent == jobs[..FirstOffline(replies)]
    {
      var success := true;
      sent := [];
      var i := 0;
      while i < |jobs|
        invariant 0 <= i <= |jobs|
        invariant sent == jobs[..i]
        invariant forall j :: 0 <= j < i ==> replies[j].Read?
        invariant success <==> forall j :: 0 <= j < i ==> RequestSucceeded(replies[j].line)
      {
        if replies[i].Offline? {
          assert FirstOffline(replies) == i;
          return Failure(DeviceOffline), sent;
        }
        sent := sent + [jobs[i]];
        if !RequestSucceeded(replies[i].line) {
          success := false;
        }
        i := i + 1;
      }
      assert sent == jobs;
      r := Success(success);
    }
  }
}
