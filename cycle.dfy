/**
 * The specification of the monitor's deregistration cycle, as a function of
 * the state before it and of what the directory and the visor answer: the
 * roster refresh, the sequential probes, the dead list and the report. The
 * log records every outgoing interaction in order.
 */
module Cycle {
  import opened Wrappers
  import opened Cipher
  import opened Vpn
  import opened Probe
  import opened Directory
  import opened Seqs

  /** Fixed for the process: the directory's base URL and the sentinel texts. */
  datatype Setup = Setup(sd: string, texts: SentinelTexts)

  /** An outgoing interaction: a roster query, a visor call, or a call of the reporter. */
  datatype Event =
    | RosterRequested(url: string)
    | Visor(call: VisorCall)
    | Deregistration(keys: seq<string>, report: Report)

  /** The monitor's fields, with the log of its interactions so far. */
  datatype State = State(vpnKeys: seq<PubKey>, deadVPNs: seq<string>, log: seq<Event>)

  /**
   * What the outside world answers during one cycle: the roster query, the
   * visor's replies to the probe of the i-th roster entry, and the
   * deregistration request.
   */
  datatype CycleEnv = CycleEnv(roster: RosterReply, visor: nat -> VisorReplies, report: ReportEnv)

  /** The state after a cycle and the number of servers found online. */
  datatype Outcome = Outcome(state: State, online: nat)

  /** The roster after a refresh: rebuilt on success, the previous one on a fetch error. */
  function Refresh(previous: seq<PubKey>, reply: RosterReply): (keys: seq<PubKey>)
    ensures reply.Decoded? ==> |keys| == |reply.services|
    ensures reply.Decoded? ==> forall i :: 0 <= i < |keys| ==> keys[i] == reply.services[i].addr.pk
    ensures !reply.Decoded? ==> keys == previous
  {
    match GetVPNs(reply)
    case Failure(_) => previous
    case Success(vpns) => KeysOf(vpns)
  }

  /** The probe of each roster entry, in roster order. */
  function Probes(texts: SentinelTexts, keys: seq<PubKey>, visor: nat -> VisorReplies): (ps: seq<ProbeResult>)
    ensures |ps| == |keys|
  {
    if keys == [] then []
    else
      var n := |keys| - 1;
      Probes(texts, keys[..n], visor) + [IsOnline(keys[n], texts, visor(n))]
  }

  /** Entry `i` of the probes is the probe of roster key `i`, answered by `visor(i)`. */
  lemma {:induction false} ProbesAt(texts: SentinelTexts, keys: seq<PubKey>, visor: nat -> VisorReplies, i: nat)
    requires i < |keys|
    ensures Probes(texts, keys, visor)[i] == IsOnline(keys[i], texts, visor(i))
    decreases |keys|
  {
    var n := |keys| - 1;
    if i < n {
      ProbesAt(texts, keys[..n], visor, i);
    }
  }

  /** The hex of every key whose probe found it offline, in roster order. */
  function DeadKeys(keys: seq<PubKey>, ps: seq<ProbeResult>): seq<string>
    requires |keys| == |ps|
  {
    if keys == [] then []
    else
      var n := |keys| - 1;
      DeadKeys(keys[..n], ps[..n]) + (if ps[n].online then [] else [Hex(keys[n])])
  }

  /** The number of probes that found their server online. */
  function OnlineCount(ps: seq<ProbeResult>): nat
  {
    if ps == [] then 0
    else OnlineCount(ps[..|ps| - 1]) + (if ps[|ps| - 1].online then 1 else 0)
  }

  /** Each visor call as a log event. */
  function VisorEvents(calls: seq<VisorCall>): seq<Event>
  {
    seq(|calls|, i requires 0 <= i < |calls| => Visor(calls[i]))
  }

  /** The visor calls of a sequence of probes, probe after probe. */
  function ProbeLog(ps: seq<ProbeResult>): seq<Event>
  {
    if ps == [] then [] else ProbeLog(ps[..|ps| - 1]) + VisorEvents(ps[|ps| - 1].calls)
  }

  /**
   * One cycle: refresh the roster, reset the dead list, probe every key in
   * order, and call the reporter with the whole dead list when it is not
   * empty. An empty roster probes nothing and reports nothing.
   */
  function DeregisterCycle(setup: Setup, st: State, env: CycleEnv): Outcome
  {
    var keys := Refresh(st.vpnKeys, env.roster);
    var fetched := st.log + [RosterRequested(setup.sd + VPNListPath)];
    if |keys| == 0 then Outcome(State(keys, [], fetched), 0)
    else
      var ps := Probes(setup.texts, keys, env.visor);
      var dead := DeadKeys(keys, ps);
      var probed := fetched + ProbeLog(ps);
      var log := if |dead| > 0
        then probed + [Deregistration(dead, DeregisterRequest(dead, setup.sd + DeregisterPath, env.report))]
        else probed;
      Outcome(State(keys, dead, log), OnlineCount(ps))
  }

  /** The state after `n` steps from `st`, the k-th step taking `envs(from + k)`. */
  function Iterate(step: (State, CycleEnv) -> State, st: State, envs: nat -> CycleEnv, from: nat, n: nat): State
    decreases n
  {
    if n == 0 then st else Iterate(step, step(st, envs(from)), envs, from + 1, n - 1)
  }

  /** One more step extends a run by the step taking the next environment. */
  lemma {:induction false} IterateStep(step: (State, CycleEnv) -> State, st: State, envs: nat -> CycleEnv, from: nat, n: nat)
    ensures Iterate(step, st, envs, from, n + 1) == step(Iterate(step, st, envs, from, n), envs(from + n))
    decreases n
  {
    if n > 0 {
      IterateStep(step, step(st, envs(from)), envs, from + 1, n - 1);
    }
  }

  /** The state after `n` cycles, the i-th answered by `envs(i)`. */
  function Cycles(setup: Setup, st: State, envs: nat -> CycleEnv, n: nat): State
  {
    Iterate((s, env) => DeregisterCycle(setup, s, env).state, st, envs, 0, n)
  }

  /** Running one more cycle after `n` gives the state after `n + 1`. */
  lemma CyclesStep(setup: Setup, st: State, envs: nat -> CycleEnv, n: nat, before: State, after: State)
    requires before == Cycles(setup, st, envs, n)
    requires after == DeregisterCycle(setup, before, envs(n)).state
    ensures after == Cycles(setup, st, envs, n + 1)
  {
    IterateStep((s, env) => DeregisterCycle(setup, s, env).state, st, envs, 0, n);
  }

  /** The number of cycles run before the first cancellation: the index of the first set flag. */
  function FirstCancel(cancels: seq<bool>): (n: nat)
    ensures n <= |cancels|
    ensures forall j :: 0 <= j < n ==> !cancels[j]
    ensures n < |cancels| ==> cancels[n]
  {
    if cancels == [] || cancels[0] then 0 else 1 + FirstCancel(cancels[1..])
  }

  /** Any index that ends a run of unset flags, at a set flag or at the end, is the first cancellation. */
  lemma FirstCancelIsFirst(cancels: seq<bool>, n: nat)
    requires n <= |cancels|
    requires forall j :: 0 <= j < n ==> !cancels[j]
    requires n < |cancels| ==> cancels[n]
    ensures FirstCancel(cancels) == n
  {
  }

  /** The keys a log shows transports opened to, in order. */
  function Dialled(log: seq<Event>): seq<PubKey>
  {
    if log == [] then []
    else
      var e := log[|log| - 1];
      Dialled(log[..|log| - 1]) + (if e.Visor? && e.call.AddTransport? then [e.call.remote] else [])
  }

  /** The lists the reporter was called with, in order. */
  function Reports(log: seq<Event>): seq<seq<string>>
  {
    if log == [] then []
    else
      var e := log[|log| - 1];
      Reports(log[..|log| - 1]) + (if e.Deregistration? then [e.keys] else [])
  }

  /** The transports opened in a log are those of its parts, in order. */
  lemma {:induction false} DialledAppend(a: seq<Event>, b: seq<Event>)
    ensures Dialled(a + b) == Dialled(a) + Dialled(b)
    decreases |b|
  {
    if b != [] {
      var n := |b| - 1;
      AppendDropLast(a, b);
      DialledAppend(a, b[..n]);
    } else {
      assert a + b == a;
    }
  }

  /** The reporter calls in a log are those of its parts, in order. */
  lemma {:induction false} ReportsAppend(a: seq<Event>, b: seq<Event>)
    ensures Reports(a + b) == Reports(a) + Reports(b)
    decreases |b|
  {
    if b != [] {
      var n := |b| - 1;
      AppendDropLast(a, b);
      ReportsAppend(a, b[..n]);
    } else {
      assert a + b == a;
    }
  }

  /** Visor calls other than `AddTransport` open no transport and are no reports. */
  lemma {:induction false} QuietCalls(c: seq<VisorCall>)
    requires forall i :: 0 <= i < |c| ==> !c[i].AddTransport?
    ensures Dialled(VisorEvents(c)) == [] && Reports(VisorEvents(c)) == []
    decreases |c|
  {
    if c != [] {
      var n := |c| - 1;
      assert VisorEvents(c)[..n] == VisorEvents(c[..n]);
      QuietCalls(c[..n]);
    }
  }

  /** Logging two runs of visor calls one after the other. */
  lemma VisorEventsAppend(a: seq<VisorCall>, b: seq<VisorCall>)
    ensures VisorEvents(a + b) == VisorEvents(a) + VisorEvents(b)
  {
  }

  /** A single visor call opens a transport exactly when it is `AddTransport`, and is no report. */
  lemma SingleCall(c: VisorCall)
    ensures Dialled(VisorEvents([c])) == (if c.AddTransport? then [c.remote] else [])
    ensures Reports(VisorEvents([c])) == []
  {
    assert VisorEvents([c])[..0] == [];
  }

  /** A client session only drives the app: it never opens a transport. */
  lemma SessionQuiet(app: string, pk: PubKey, c: seq<VisorCall>)
    requires c <= SessionCalls(app, pk)
    ensures forall i :: 0 <= i < |c| ==> !c[i].AddTransport?
  {
    var all := SessionCalls(app, pk);
    forall i | 0 <= i < |c| ensures !c[i].AddTransport? {
      assert c[i] == all[i];
      assert i == 0 || i == 1 || i == 2 || i == 3 || i == 4;
    }
  }

  /** Calls that start with one `AddTransport` and open no other transport. */
  lemma DialsOfShape(key: PubKey, rest: seq<VisorCall>)
    requires forall i :: 0 <= i < |rest| ==> !rest[i].AddTransport?
    ensures Dialled(VisorEvents([AddTransport(key, DMSG)] + rest)) == [key]
    ensures Reports(VisorEvents([AddTransport(key, DMSG)] + rest)) == []
  {
    var first := AddTransport(key, DMSG);
    SingleCall(first);
    QuietCalls(rest);
    VisorEventsAppend([first], rest);
    DialledAppend(VisorEvents([first]), VisorEvents(rest));
    ReportsAppend(VisorEvents([first]), VisorEvents(rest));
  }

  /** A probe opens exactly one transport, to the probed key, and makes no report. */
  lemma ProbeDialsOnce(key: PubKey, texts: SentinelTexts, v: VisorReplies)
    ensures Dialled(VisorEvents(IsOnline(key, texts, v).calls)) == [key]
    ensures Reports(VisorEvents(IsOnline(key, texts, v).calls)) == []
  {
    var calls := IsOnline(key, texts, v).calls;
    if v.addTransport.Success? {
      var sc := RunVpnClient(v, key, VPNClientName, texts).calls;
      SessionQuiet(VPNClientName, key, sc);
      var rest := sc + [RemoveTransport(v.addTransport.value.id)];
      assert forall i :: 0 <= i < |rest| ==> !rest[i].AddTransport?;
      assert calls == [AddTransport(key, DMSG)] + rest;
      DialsOfShape(key, rest);
    } else {
      assert calls == [AddTransport(key, DMSG)] + [];
      DialsOfShape(key, []);
    }
  }

  /** Probing a roster opens one transport per key, in roster order, and makes no report. */
  lemma {:induction false} ProbesDial(texts: SentinelTexts, keys: seq<PubKey>, visor: nat -> VisorReplies)
    ensures Dialled(ProbeLog(Probes(texts, keys, visor))) == keys
    ensures Reports(ProbeLog(Probes(texts, keys, visor))) == []
    decreases |keys|
  {
    if keys != [] {
      var n := |keys| - 1;
      var ps := Probes(texts, keys, visor);
      var prev := Probes(texts, keys[..n], visor);
      var p := IsOnline(keys[n], texts, visor(n));
      assert ps == prev + [p];
      assert ps[..n] == prev;
      assert ProbeLog(ps) == ProbeLog(prev) + VisorEvents(p.calls);
      ProbesDial(texts, keys[..n], visor);
      ProbeDialsOnce(keys[n], texts, visor(n));
      DialledAppend(ProbeLog(prev), VisorEvents(p.calls));
      ReportsAppend(ProbeLog(prev), VisorEvents(p.calls));
      DropLast(keys);
    }
  }

  /** Every probed key is either counted online or listed dead. */
  lemma {:induction false} CountPlusDead(keys: seq<PubKey>, ps: seq<ProbeResult>)
    requires |keys| == |ps|
    ensures OnlineCount(ps) + |DeadKeys(keys, ps)| == |keys|
    decreases |keys|
  {
    if keys != [] {
      CountPlusDead(keys[..|keys| - 1], ps[..|ps| - 1]);
    }
  }

  /** Entry `i` of the roster was probed offline and `s` is its hex. */
  predicate DeadAt(keys: seq<PubKey>, ps: seq<ProbeResult>, s: string, i: int)
    requires |keys| == |ps|
  {
    0 <= i < |keys| && !ps[i].online && s == Hex(keys[i])
  }

  /** The dead list holds exactly the hex of roster keys whose probe failed. */
  lemma {:induction false} DeadMember(keys: seq<PubKey>, ps: seq<ProbeResult>, s: string)
    requires |keys| == |ps|
    ensures s in DeadKeys(keys, ps) <==> exists i :: DeadAt(keys, ps, s, i)
    decreases |keys|
  {
    if keys != [] {
      var n := |keys| - 1;
      var k', p' := keys[..n], ps[..n];
      DeadMember(k', p', s);
      var tail := if ps[n].online then [] else [Hex(keys[n])];
      assert DeadKeys(keys, ps) == DeadKeys(k', p') + tail;
      if s in DeadKeys(k', p') {
        var i :| DeadAt(k', p', s, i);
        assert DeadAt(keys, ps, s, i);
      } else if s in tail {
        assert DeadAt(keys, ps, s, n);
      }
      if exists i :: DeadAt(keys, ps, s, i) {
        var i :| DeadAt(keys, ps, s, i);
        if i < n {
          assert DeadAt(k', p', s, i);
        } else {
          assert s in tail;
        }
      }
    }
  }

  /** A key's hex is listed dead exactly when some roster entry with that key was probed offline. */
  lemma DeadKeyMember(keys: seq<PubKey>, ps: seq<ProbeResult>, k: PubKey)
    requires |keys| == |ps|
    ensures Hex(k) in DeadKeys(keys, ps) <==> exists i :: 0 <= i < |keys| && !ps[i].online && keys[i] == k
  {
    DeadMember(keys, ps, Hex(k));
    if Hex(k) in DeadKeys(keys, ps) {
      var i :| DeadAt(keys, ps, Hex(k), i);
      HexInjective(k, keys[i]);
    }
    if exists i :: 0 <= i < |keys| && !ps[i].online && keys[i] == k {
      var i :| 0 <= i < |keys| && !ps[i].online && keys[i] == k;
      assert DeadAt(keys, ps, Hex(k), i);
    }
  }

  /** The dead list of a roster is that of its first part followed by that of the rest. */
  lemma {:induction false} DeadKeysAppend(k1: seq<PubKey>, p1: seq<ProbeResult>, k2: seq<PubKey>, p2: seq<ProbeResult>)
    requires |k1| == |p1| && |k2| == |p2|
    ensures DeadKeys(k1 + k2, p1 + p2) == DeadKeys(k1, p1) + DeadKeys(k2, p2)
    decreases |k2|
  {
    if k2 == [] {
      assert k1 + k2 == k1 && p1 + p2 == p1;
    } else {
      var n := |k2| - 1;
      var tail := if p2[n].online then [] else [Hex(k2[n])];
      AppendDropLast(k1, k2);
      AppendDropLast(p1, p2);
      assert DeadKeys(k1 + k2, p1 + p2) == DeadKeys(k1 + k2[..n], p1 + p2[..n]) + tail;
      DeadKeysAppend(k1, p1, k2[..n], p2[..n]);
      AppendAssoc(DeadKeys(k1, p1), DeadKeys(k2[..n], p2[..n]), tail);
    }
  }

  /**
   * After a cycle the roster is the refreshed one, every roster key is
   * either counted online or listed dead, and the dead list holds only
   * hex texts of roster keys probed offline.
   */
  lemma CycleSummary(setup: Setup, st: State, env: CycleEnv)
    ensures var o := DeregisterCycle(setup, st, env);
      && o.state.vpnKeys == Refresh(st.vpnKeys, env.roster)
      && o.online + |o.state.deadVPNs| == |o.state.vpnKeys|
      && o.state.deadVPNs == DeadKeys(o.state.vpnKeys, Probes(setup.texts, o.state.vpnKeys, env.visor))
  {
    var keys := Refresh(st.vpnKeys, env.roster);
    CountPlusDead(keys, Probes(setup.texts, keys, env.visor));
  }

  /** No dead entry names a key outside the roster. */
  lemma CycleDeadInRoster(setup: Setup, st: State, env: CycleEnv, s: string)
    requires s in DeregisterCycle(setup, st, env).state.deadVPNs
    ensures exists k :: k in DeregisterCycle(setup, st, env).state.vpnKeys && s == Hex(k)
  {
    var keys := DeregisterCycle(setup, st, env).state.vpnKeys;
    var ps := Probes(setup.texts, keys, env.visor);
    DeadMember(keys, ps, s);
    var i :| DeadAt(keys, ps, s, i);
    assert keys[i] in keys;
  }

  /** The log of a cycle in its four parts: before, roster query, probes, report. */
  lemma CycleLogShape(setup: Setup, st: State, env: CycleEnv)
    ensures var o := DeregisterCycle(setup, st, env);
      var keys := o.state.vpnKeys;
      var dead := o.state.deadVPNs;
      && (keys == [] ==> dead == [])
      && o.state.log == st.log + [RosterRequested(setup.sd + VPNListPath)]
           + (if keys == [] then [] else ProbeLog(Probes(setup.texts, keys, env.visor)))
           + (if dead == [] then [] else [Deregistration(dead, DeregisterRequest(dead, setup.sd + DeregisterPath, env.report))])
  {
  }

  /** The transports and reports of a log built in four parts. */
  lemma {:induction false} LogParts(l0: seq<Event>, f: seq<Event>, pl: seq<Event>, r: seq<Event>, keys: seq<PubKey>, reports: seq<seq<string>>)
    requires Dialled(f) == [] && Reports(f) == []
    requires Dialled(pl) == keys && Reports(pl) == []
    requires Dialled(r) == [] && Reports(r) == reports
    ensures Dialled(l0 + f + pl + r) == Dialled(l0) + keys
    ensures Reports(l0 + f + pl + r) == Reports(l0) + reports
  {
    DialledAppend(l0, f);
    DialledAppend(l0 + f, pl);
    DialledAppend(l0 + f + pl, r);
    ReportsAppend(l0, f);
    ReportsAppend(l0 + f, pl);
    ReportsAppend(l0 + f + pl, r);
  }

  /** A cycle starts with exactly one roster query. */
  lemma CycleQueriesFirst(setup: Setup, st: State, env: CycleEnv)
    ensures DeregisterCycle(setup, st, env).state.log[..|st.log| + 1] == st.log + [RosterRequested(setup.sd + VPNListPath)]
  {
    var o := DeregisterCycle(setup, st, env);
    CycleLogShape(setup, st, env);
    var pl := if o.state.vpnKeys == [] then [] else ProbeLog(Probes(setup.texts, o.state.vpnKeys, env.visor));
    var dead := o.state.deadVPNs;
    var r := if dead == [] then [] else [Deregistration(dead, DeregisterRequest(dead, setup.sd + DeregisterPath, env.report))];
    PrefixOfLog(st.log, [RosterRequested(setup.sd + VPNListPath)], pl, r);
  }

  /** A log built in four parts starts with its first two. */
  lemma PrefixOfLog(l0: seq<Event>, f: seq<Event>, pl: seq<Event>, r: seq<Event>)
    ensures (l0 + f + pl + r)[..|l0| + |f|] == l0 + f
  {
    AppendAssoc(l0 + f, pl, r);
  }

  /**
   * A cycle opens one transport per roster key in roster order (none when
   * the roster is empty), and calls the reporter once with the whole dead
   * list when it is non-empty, never otherwise.
   */
  lemma CycleInteractions(setup: Setup, st: State, env: CycleEnv)
    ensures var o := DeregisterCycle(setup, st, env);
      && Dialled(o.state.log) == Dialled(st.log) + o.state.vpnKeys
      && Reports(o.state.log) == Reports(st.log) + (if o.state.deadVPNs == [] then [] else [o.state.deadVPNs])
  {
    var o := DeregisterCycle(setup, st, env);
    var keys, dead := o.state.vpnKeys, o.state.deadVPNs;
    CycleLogShape(setup, st, env);
    var f := [RosterRequested(setup.sd + VPNListPath)];
    var pl := if keys == [] then [] else ProbeLog(Probes(setup.texts, keys, env.visor));
    var r := if dead == [] then [] else [Deregistration(dead, DeregisterRequest(dead, setup.sd + DeregisterPath, env.report))];
    QuietEvents(f, []);
    QuietEvents(r, if dead == [] then [] else [dead]);
    if keys != [] {
      ProbesDial(setup.texts, keys, env.visor);
    }
    LogParts(st.log, f, pl, r, keys, if dead == [] then [] else [dead]);
  }

  /** No event, a roster query, or one reporter call: no transport, and at most that report. */
  lemma QuietEvents(es: seq<Event>, reports: seq<seq<string>>)
    requires es == [] || (|es| == 1 && es[0].RosterRequested? && reports == [])
      || (|es| == 1 && es[0].Deregistration? && reports == [es[0].keys])
    requires es == [] ==> reports == []
    ensures Dialled(es) == [] && Reports(es) == reports
  {
    if es != [] {
      assert es[..0] == [];
    }
  }

  /** The state and count a cycle produces, part by part. */
  lemma CycleParts(setup: Setup, st: State, env: CycleEnv)
    ensures var o := DeregisterCycle(setup, st, env);
      var keys := Refresh(st.vpnKeys, env.roster);
      var ps := Probes(setup.texts, keys, env.visor);
      var dead := if keys == [] then [] else DeadKeys(keys, ps);
      && o.state.vpnKeys == keys
      && o.state.deadVPNs == dead
      && o.online == (if keys == [] then 0 else OnlineCount(ps))
      && o.state.log == st.log + [RosterRequested(setup.sd + VPNListPath)]
           + (if keys == [] then [] else ProbeLog(ps))
           + (if dead == [] then [] else [Deregistration(dead, DeregisterRequest(dead, setup.sd + DeregisterPath, env.report))])
  {
  }

  /** A cycle whose refreshed roster is empty only queries the directory. */
  lemma CycleWithoutKeys(setup: Setup, st: State, env: CycleEnv)
    requires Refresh(st.vpnKeys, env.roster) == []
    ensures DeregisterCycle(setup, st, env) == Outcome(State([], [], st.log + [RosterRequested(setup.sd + VPNListPath)]), 0)
  {
  }

  /** A cycle whose refreshed roster is not empty, written out from the probes of that roster. */
  lemma CycleWithKeys(setup: Setup, st: State, env: CycleEnv, keys: seq<PubKey>, ps: seq<ProbeResult>, dead: seq<string>)
    requires keys == Refresh(st.vpnKeys, env.roster) && keys != []
    requires ps == Probes(setup.texts, keys, env.visor) && dead == DeadKeys(keys, ps)
    ensures DeregisterCycle(setup, st, env) == Outcome(State(keys, dead,
      st.log + [RosterRequested(setup.sd + VPNListPath)] + ProbeLog(ps)
        + (if |dead| > 0 then [Deregistration(dead, DeregisterRequest(dead, setup.sd + DeregisterPath, env.report))] else [])),
      OnlineCount(ps))
  {
  }

  /** Probing one more roster entry appends that entry's probe. */
  lemma ProbesSnoc(texts: SentinelTexts, keys: seq<PubKey>, visor: nat -> VisorReplies, i: nat)
    requires i < |keys|
    ensures Probes(texts, keys[..i + 1], visor) == Probes(texts, keys[..i], visor) + [IsOnline(keys[i], texts, visor(i))]
  {
    PrefixOfPrefix(keys, i);
  }

  /** One more probe extends the dead list, the count and the log by that probe alone. */
  lemma ExtendProbes(keys: seq<PubKey>, i: nat, ps: seq<ProbeResult>, p: ProbeResult)
    requires i < |keys| && |ps| == i
    ensures DeadKeys(keys[..i + 1], ps + [p]) == DeadKeys(keys[..i], ps) + (if p.online then [] else [Hex(keys[i])])
    ensures OnlineCount(ps + [p]) == OnlineCount(ps) + (if p.online then 1 else 0)
    ensures ProbeLog(ps + [p]) == ProbeLog(ps) + VisorEvents(p.calls)
  {
    PrefixOfPrefix(keys, i);
    assert (ps + [p])[..i] == ps;
  }

  /** Probing one more roster entry extends the dead list, the count and the log by that probe alone. */
  lemma ProbeStep(texts: SentinelTexts, keys: seq<PubKey>, visor: nat -> VisorReplies, i: nat)
    requires i < |keys|
    ensures var p := IsOnline(keys[i], texts, visor(i));
      var before := Probes(texts, keys[..i], visor);
      var after := Probes(texts, keys[..i + 1], visor);
      && DeadKeys(keys[..i + 1], after) == DeadKeys(keys[..i], before) + (if p.online then [] else [Hex(keys[i])])
      && OnlineCount(after) == OnlineCount(before) + (if p.online then 1 else 0)
      && ProbeLog(after) == ProbeLog(before) + VisorEvents(p.calls)
  {
    ProbesSnoc(texts, keys, visor, i);
    ExtendProbes(keys, i, Probes(texts, keys[..i], visor), IsOnline(keys[i], texts, visor(i)));
  }

  /** The previous cycle's dead list has no influence on the next cycle. */
  lemma CycleIgnoresPreviousDead(setup: Setup, st: State, env: CycleEnv, earlier: seq<string>)
    ensures DeregisterCycle(setup, st.(deadVPNs := earlier), env) == DeregisterCycle(setup, st, env)
  {
  }

  /** A failing report changes neither the roster, the dead list nor the count. */
  lemma CycleReportFailureSwallowed(setup: Setup, st: State, env: CycleEnv, other: ReportEnv)
    ensures var o := DeregisterCycle(setup, st, env);
      var o' := DeregisterCycle(setup, st, env.(report := other));
      o'.state.vpnKeys == o.state.vpnKeys && o'.state.deadVPNs == o.state.deadVPNs && o'.online == o.online
  {
  }

  /** Three probes, the first online and the others not: one online, the last two dead, in order. */
  lemma ThreeProbes(texts: SentinelTexts, keys: seq<PubKey>, visor: nat -> VisorReplies)
    requires |keys| == 3
    requires IsOnline(keys[0], texts, visor(0)).online
    requires !IsOnline(keys[1], texts, visor(1)).online && !IsOnline(keys[2], texts, visor(2)).online
    ensures var ps := Probes(texts, keys, visor);
      DeadKeys(keys, ps) == [Hex(keys[1]), Hex(keys[2])] && OnlineCount(ps) == 1
  {
    assert keys[..0] == [] && keys[..3] == keys;
    ProbeStep(texts, keys, visor, 0);
    ProbeStep(texts, keys, visor, 1);
    ProbeStep(texts, keys, visor, 2);
  }

  /**
   * Roster [A, B, C]: A runs a clean session, B's transport fails, C reports
   * "server offline". One server is online and the reporter is called once
   * with [hex(B), hex(C)].
   */
  lemma ThreeServerScenario(setup: Setup, st: State, env: CycleEnv, a: PubKey, b: PubKey, c: PubKey)
    requires env.roster == Decoded([Service(SWAddr(a, 0)), Service(SWAddr(b, 0)), Service(SWAddr(c, 0))])
    requires env.visor(0).addTransport.Success? && Started(env.visor(0))
    requires !IsSentinelText(setup.texts, env.visor(0).appError)
    requires env.visor(0).connectionsSummary.Success? && env.visor(0).stopApp.None?
    requires env.visor(1).addTransport.Failure?
    requires env.visor(2).addTransport.Success? && Started(env.visor(2))
    requires env.visor(2).appError == setup.texts.serverOffline
    requires setup.texts.serverOffline != setup.texts.setupNode
    requires setup.texts.serverOffline != setup.texts.notPermitted
    ensures var o := DeregisterCycle(setup, st, env);
      && o.state.vpnKeys == [a, b, c]
      && o.online == 1
      && o.state.deadVPNs == [Hex(b), Hex(c)]
      && Reports(o.state.log) == Reports(st.log) + [[Hex(b), Hex(c)]]
  {
    var keys := [a, b, c];
    assert KeysOf(env.roster.services) == keys;
    var t, v := setup.texts, env.visor;
    assert IsOnline(a, t, v(0)).online;
    assert !IsOnline(b, t, v(1)).online;
    assert !IsOnline(c, t, v(2)).online;
    ThreeProbes(t, keys, v);
    CycleParts(setup, st, env);
    CycleInteractions(setup, st, env);
  }
}
