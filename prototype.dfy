/// The first, flag-based bridge (src/exports/cktapcard.cpp). There is no thread object: the
/// engine runs on the caller's thread, and the transport callback hands each command to the
/// host's transmit function and then sleeps until the host has written a response and raised a
/// flag. There is no deadline and no cancel. The process-wide globals `g_hasResponse`,
/// `g_responseData`, `g_satscard` and `g_tapsigner` are the fields of one object.
module Prototype {
  import opened Wrappers
  import opened Engine
  import Utils

  /// What the waiting callback can observe: the response flag and the response buffer.
  datatype Exchange = Exchange(hasResponse: bool, response: seq<Byte>)

  /// A host call made while the callback sleeps: size the buffer and write the response into
  /// it (`cktapcard_allocateResponse` with the data's length, then a write through the
  /// pointer), or `cktapcard_finalizeResponse`.
  datatype HostAction = Supply(data: seq<Byte>) | Finalize

  /// A response the host can size through an `int32_t`.
  predicate Representable(actions: seq<HostAction>) {
    forall k :: 0 <= k < |actions| ==> actions[k].Supply? ==> |actions[k].data| < 0x8000_0000
  }

  /// One host call's effect. Sizing and writing are not gated by the flag, so a response can
  /// be replaced after it was flagged; finalising only raises the flag.
  function Effect(x: Exchange, a: HostAction): (y: Exchange)
    ensures y.hasResponse == (x.hasResponse || a == Finalize)
    ensures y.response == if a.Supply? then a.data else x.response
  {
    match a
    case Supply(data) => x.(response := data)
    case Finalize => x.(hasResponse := true)
  }

  /// The effect of the host calls made during one sleep, in order.
  function ApplyAll(x: Exchange, actions: seq<HostAction>): Exchange
    decreases |actions|
  {
    if |actions| == 0 then x else ApplyAll(Effect(x, actions[0]), actions[1..])
  }

  /// The flag is raised after a series of host calls exactly when it was raised before or one
  /// of them finalised.
  lemma {:induction false} ApplyAllFlag(x: Exchange, actions: seq<HostAction>)
    ensures ApplyAll(x, actions).hasResponse <==>
              x.hasResponse || exists k :: 0 <= k < |actions| && actions[k] == Finalize
    decreases |actions|
  {
    if |actions| > 0 {
      ApplyAllFlag(Effect(x, actions[0]), actions[1..]);
      if exists k :: 0 <= k < |actions[1..]| && actions[1..][k] == Finalize {
        var k :| 0 <= k < |actions[1..]| && actions[1..][k] == Finalize;
        assert actions[k + 1] == Finalize;
      }
      if exists k :: 0 <= k < |actions| && actions[k] == Finalize {
        var k :| 0 <= k < |actions| && actions[k] == Finalize;
        if k > 0 {
          assert actions[1..][k - 1] == Finalize;
        }
      }
    }
  }

  /// The wait loop `while (!g_hasResponse) sleep`, over the host calls made during each sleep.
  /// The result is the exchange when the loop was left, or after the last sleep if the flag
  /// was still down then, and whether the loop was left.
  function WaitFor(x: Exchange, sleeps: seq<seq<HostAction>>): (Exchange, bool)
    decreases |sleeps|
  {
    if x.hasResponse then (x, true)
    else if |sleeps| == 0 then (x, false)
    else WaitFor(ApplyAll(x, sleeps[0]), sleeps[1..])
  }

  /// The wait ends exactly when the host finalises during one of the sleeps: with no deadline,
  /// a host that never finalises keeps the engine waiting for ever.
  lemma {:induction false} WaitEndsIffFinalized(x: Exchange, sleeps: seq<seq<HostAction>>)
    requires !x.hasResponse
    ensures WaitFor(x, sleeps).1 <==>
              exists i, k :: 0 <= i < |sleeps| && 0 <= k < |sleeps[i]| && sleeps[i][k] == Finalize
    ensures WaitFor(x, sleeps).1 <==> WaitFor(x, sleeps).0.hasResponse
    decreases |sleeps|
  {
    if |sleeps| > 0 {
      var y := ApplyAll(x, sleeps[0]);
      ApplyAllFlag(x, sleeps[0]);
      if !y.hasResponse {
        WaitEndsIffFinalized(y, sleeps[1..]);
        if exists i, k :: 0 <= i < |sleeps[1..]| && 0 <= k < |sleeps[1..][i]| && sleeps[1..][i][k] == Finalize {
          var i, k :| 0 <= i < |sleeps[1..]| && 0 <= k < |sleeps[1..][i]| && sleeps[1..][i][k] == Finalize;
          assert sleeps[i + 1][k] == Finalize;
        }
        if exists i, k :: 0 <= i < |sleeps| && 0 <= k < |sleeps[i]| && sleeps[i][k] == Finalize {
          var i, k :| 0 <= i < |sleeps| && 0 <= k < |sleeps[i]| && sleeps[i][k] == Finalize;
          assert i > 0;
          assert sleeps[1..][i - 1][k] == Finalize;
        }
      } else {
        var k :| 0 <= k < |sleeps[0]| && sleeps[0][k] == Finalize;
        assert sleeps[0][k] == Finalize;
      }
    }
  }

  /// One exchange the engine makes through the transport: the command it sends and the host
  /// calls made during each sleep of the wait that follows.
  datatype Round = Round(command: seq<Byte>, sleeps: seq<seq<HostAction>>)

  /// Host calls the host can size through an `int32_t`, in every sleep of every round.
  predicate RoundsRepresentable(rounds: seq<Round>) {
    forall i, j :: 0 <= i < |rounds| && 0 <= j < |rounds[i].sleeps| ==> Representable(rounds[i].sleeps[j])
  }

  /// A series of exchanges: each lowers the flag and waits as `WaitFor` says. The result is the
  /// exchange afterwards and whether every wait ended; the series stops at the first wait
  /// that is still going at the end of its schedule.
  function Identify(x: Exchange, rounds: seq<Round>): (Exchange, bool)
    decreases |rounds|
  {
    if |rounds| == 0 then (x, true)
    else
      var (y, done) := WaitFor(Exchange(false, x.response), rounds[0].sleeps);
      if !done then (y, false) else Identify(y, rounds[1..])
  }

  /// After a series of exchanges that all ended, the flag is up exactly when there was at
  /// least one exchange; the buffer is the one the last exchange left.
  lemma {:induction false} IdentifyLeavesFlagUp(x: Exchange, rounds: seq<Round>)
    requires Identify(x, rounds).1
    ensures Identify(x, rounds).0.hasResponse <==> x.hasResponse || |rounds| > 0
    ensures |rounds| > 0 ==> exists y :: Identify(x, rounds).0 == WaitFor(y, rounds[|rounds| - 1].sleeps).0 && !y.hasResponse
    decreases |rounds|
  {
    if |rounds| > 0 {
      var z := Exchange(false, x.response);
      var (y, done) := WaitFor(z, rounds[0].sleeps);
      WaitEndsIffFinalized(z, rounds[0].sleeps);
      assert done && y.hasResponse;
      if |rounds| == 1 {
        assert rounds[1..] == [];
        assert Identify(x, rounds).0 == WaitFor(z, rounds[0].sleeps).0;
      } else {
        IdentifyLeavesFlagUp(y, rounds[1..]);
        assert rounds[1..][|rounds[1..]| - 1] == rounds[|rounds| - 1];
      }
    }
  }

  /// The globals of the prototype bridge.
  class PrototypeBridge {
    var hasResponse: bool
    var responseData: seq<Byte>
    var satscard: Option<Card>
    var tapsigner: Option<Card>

    /// What the waiting callback observes.
    function View(): (x: Exchange)
      reads this
      ensures x.hasResponse == hasResponse && x.response == responseData
    {
      Exchange(hasResponse, responseData)
    }

    /// The globals' initialisers.
    constructor()
      ensures !hasResponse && responseData == [] && satscard == None && tapsigner == None
    {
      hasResponse := false;
      responseData := [];
      satscard := None;
      tapsigner := None;
    }

    /// `cktapcard_constructor`. Without a transmit function nothing happens and -1 is
    /// returned. Otherwise the engine identifies the card through the transport: `rounds` are
    /// its exchanges, each through `Transmit`. A wait still going at the end of its schedule
    /// leaves the constructor blocked (`None`). Once identified, the card (`detected`) is
    /// converted (`converted` is whether the conversion gave an object). The matching global is
    /// overwritten even when the conversion gave nothing; the result is 2 for a Tapsigner, 1 for
    /// a Satscard and -1 when there is no object.
    method Construct(transmitPresent: bool, rounds: seq<Round>, detected: Card, converted: bool) returns (r: Option<int>)
      requires RoundsRepresentable(rounds)
      modifies this
      ensures !transmitPresent ==> r == Some(-1) && unchanged(this)
      ensures transmitPresent ==> View() == Identify(old(View()), rounds).0
      ensures transmitPresent ==> (r.Some? <==> Identify(old(View()), rounds).1)
      ensures r.Some? ==> r.value == -1 || r.value == 1 || r.value == 2
      ensures transmitPresent && r.None? ==> satscard == old(satscard) && tapsigner == old(tapsigner)
      ensures transmitPresent && r.Some? && detected.isTapsigner ==>
                && tapsigner == (if converted then Some(detected) else None) && satscard == old(satscard)
                && r.value == (if converted then 2 else -1)
      ensures transmitPresent && r.Some? && !detected.isTapsigner ==>
                && satscard == (if converted then Some(detected) else None) && tapsigner == old(tapsigner)
                && r.value == (if converted then 1 else -1)
    {
      if !transmitPresent {
        return Some(-1);
      }
      ghost var start := View();
      var i := 0;
      while i < |rounds|
        invariant 0 <= i <= |rounds|
        invariant Identify(View(), rounds[i..]) == Identify(start, rounds)
        invariant satscard == old(satscard) && tapsigner == old(tapsigner)
      {
        assert rounds[i..][0] == rounds[i] && rounds[i..][1..] == rounds[i + 1..];
        var reply := Transmit(rounds[i].command, rounds[i].sleeps);
        if reply.None? {
          return None;
        }
        i := i + 1;
      }
      if detected.isTapsigner {
        tapsigner := if converted then Some(detected) else None;
        if tapsigner.Some? {
          return Some(2);
        }
      } else {
        satscard := if converted then Some(detected) else None;
        if satscard.Some? {
          return Some(1);
        }
      }
      return Some(-1);
    }

    /// `cktapcard_allocateResponse`: a negative size gives null and changes nothing; any other
    /// size, zero included, makes the response exactly that long, whether or not a response
    /// has already been flagged.
    method AllocateResponse(size: Utils.Int32) returns (granted: bool)
      modifies this
      ensures granted <==> size >= 0
      ensures granted ==> responseData == Resize(old(responseData), size) && |responseData| == size
      ensures hasResponse == old(hasResponse) && satscard == old(satscard) && tapsigner == old(tapsigner)
      ensures !granted ==> responseData == old(responseData)
    {
      if size < 0 {
        return false;
      }
      responseData := Resize(responseData, size);
      granted := true;
    }

    /// `cktapcard_finalizeResponse`: -1 and no change when a response is already flagged;
    /// otherwise the flag is raised and 0 returned.
    method FinalizeResponse() returns (r: int)
      modifies this
      ensures r == 0 <==> !old(hasResponse)
      ensures r == -1 <==> old(hasResponse)
      ensures hasResponse
      ensures responseData == old(responseData) && satscard == old(satscard) && tapsigner == old(tapsigner)
    {
      if hasResponse {
        return -1;
      }
      hasResponse := true;
      r := 0;
    }

    /// One host call made while the callback sleeps.
    method ApplyHostAction(a: HostAction)
      requires a.Supply? ==> |a.data| < 0x8000_0000
      modifies this
      ensures View() == Effect(old(View()), a)
      ensures satscard == old(satscard) && tapsigner == old(tapsigner)
    {
      match a
      case Supply(data) =>
        var granted := AllocateResponse(|data|);
        responseData := data;
      case Finalize =>
        var r := FinalizeResponse();
    }

    /// The host calls made during one sleep, in order.
    method ApplyHostActions(actions: seq<HostAction>)
      requires Representable(actions)
      modifies this
      ensures View() == ApplyAll(old(View()), actions)
      ensures satscard == old(satscard) && tapsigner == old(tapsigner)
    {
      var i := 0;
      while i < |actions|
        invariant 0 <= i <= |actions|
        invariant ApplyAll(View(), actions[i..]) == ApplyAll(old(View()), actions)
        invariant satscard == old(satscard) && tapsigner == old(tapsigner)
      {
        ApplyHostAction(actions[i]);
        assert actions[i..][1..] == actions[i + 1..];
        i := i + 1;
      }
    }

    /// The transport callback: the flag is lowered, the command handed to the transmit
    /// function, and the callback sleeps until the flag is raised; it then returns the
    /// response, empty or not. `sleeps` are the host calls made during each sleep; when the
    /// flag is still down after the last of them the callback is still waiting (`None`).
    method Transmit(command: seq<Byte>, sleeps: seq<seq<HostAction>>) returns (r: Option<seq<Byte>>)
      requires forall i :: 0 <= i < |sleeps| ==> Representable(sleeps[i])
      modifies this
      ensures var (y, done) := WaitFor(Exchange(false, old(responseData)), sleeps);
              && View() == y
              && (r.Some? <==> done)
              && (r.Some? ==> r.value == responseData)
      ensures satscard == old(satscard) && tapsigner == old(tapsigner)
    {
      hasResponse := false;
      ghost var start := View();
      var i := 0;
      while !hasResponse && i < |sleeps|
        invariant 0 <= i <= |sleeps|
        invariant WaitFor(View(), sleeps[i..]) == WaitFor(start, sleeps)
        invariant satscard == old(satscard) && tapsigner == old(tapsigner)
        decreases |sleeps| - i
      {
        assert sleeps[i..][0] == sleeps[i] && sleeps[i..][1..] == sleeps[i + 1..];
        ApplyHostActions(sleeps[i]);
        i := i + 1;
      }
      if !hasResponse {
        return None;
      }
      if |responseData| == 0 {
        return Some([]);
      }
      r := Some(responseData);
    }
  }
}
