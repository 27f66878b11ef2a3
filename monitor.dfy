/**
 * The monitor object: the roster and dead list it updates in place, the
 * roster refresh, the per-key test, the reporter, one deregistration cycle
 * and the loop of cycles. A ghost log records every outgoing interaction,
 * so that each method can be tied to the cycle specification.
 */
module Monitor {
  import opened Wrappers
  import opened Cipher
  import opened Vpn
  import opened Probe
  import opened Directory
  import opened Cycle
  import opened Seqs

  class Api {
    /** The directory's base URL and the sentinel texts, fixed at start. */
    const setup: Setup
    /** The roster of the last successful fetch. */
    var vpnKeys: seq<PubKey>
    /** The hex keys found dead in the current cycle. */
    var deadVPNs: seq<string>
    /** Every roster query, visor call and reporter call so far, in order. */
    ghost var log: seq<Event>

    ghost function Abstract(): State
      reads this
    {
      State(vpnKeys, deadVPNs, log)
    }

    /** A new monitor knows no keys and no dead servers. */
    constructor (setup: Setup)
      ensures this.setup == setup
      ensures vpnKeys == [] && deadVPNs == [] && log == []
    {
      this.setup := setup;
      vpnKeys := [];
      deadVPNs := [];
      log := [];
    }

    /**
     * Refreshes the roster: on a successful fetch it is rebuilt with one key
     * per listed service, in order; on a fetch error it is left as it was.
     */
    method GetVPNKeys(reply: RosterReply)
      modifies this`vpnKeys, this`log
      ensures vpnKeys == Refresh(old(vpnKeys), reply)
      ensures log == old(log) + [RosterRequested(setup.sd + VPNListPath)]
    {
      log := log + [RosterRequested(setup.sd + VPNListPath)];
      var vpns := GetVPNs(reply);
      if vpns.Failure? {
        return;
      }
      var services := vpns.value;
      vpnKeys := [];
      for i := 0 to |services|
        invariant vpnKeys == KeysOf(services[..i])
        invariant log == old(log) + [RosterRequested(setup.sd + VPNListPath)]
      {
        PrefixOfPrefix(services, i);
        vpnKeys := vpnKeys + [services[i].addr.pk];
      }
      assert services[..|services|] == services;
    }

    /**
     * Probes one key: counts it when online, appends its hex to the dead
     * list otherwise.
     */
    method TestVPN(key: PubKey, replies: VisorReplies, onlineVpnCount: nat) returns (count: nat)
      modifies this`deadVPNs, this`log
      ensures var p := IsOnline(key, setup.texts, replies);
        && count == onlineVpnCount + (if p.online then 1 else 0)
        && deadVPNs == old(deadVPNs) + (if p.online then [] else [Hex(key)])
        && log == old(log) + VisorEvents(p.calls)
    {
      var p := IsOnline(key, setup.texts, replies);
      log := log + VisorEvents(p.calls);
      count := onlineVpnCount;
      if p.online {
        count := count + 1;
      }
      if !p.online {
        deadVPNs := deadVPNs + [Hex(key)];
      }
    }

    /** Sends the deregistration request; its error is swallowed and nothing but the log changes. */
    method VpnDeregister(keys: seq<string>, env: ReportEnv)
      modifies this`log
      ensures log == old(log) + [Deregistration(keys, DeregisterRequest(keys, setup.sd + DeregisterPath, env))]
    {
      var report := DeregisterRequest(keys, setup.sd + DeregisterPath, env);
      log := log + [Deregistration(keys, report)];
    }

    /**
     * Probes every roster key in order, one at a time: the count grows by
     * the keys found online and the dead list by the hex of the others.
     */
    method ProbeAll(visor: nat -> VisorReplies, onlineVpnCount: nat) returns (count: nat)
      modifies this`deadVPNs, this`log
      ensures var ps := Probes(setup.texts, vpnKeys, visor);
        && count == onlineVpnCount + OnlineCount(ps)
        && deadVPNs == old(deadVPNs) + DeadKeys(vpnKeys, ps)
        && log == old(log) + ProbeLog(ps)
    {
      var keys := vpnKeys;
      ghost var texts := setup.texts;
      count := onlineVpnCount;
      for i := 0 to |keys|
        invariant vpnKeys == keys
        invariant var ps := Probes(texts, keys[..i], visor);
          && count == onlineVpnCount + OnlineCount(ps)
          && deadVPNs == old(deadVPNs) + DeadKeys(keys[..i], ps)
          && log == old(log) + ProbeLog(ps)
      {
        ghost var ps, p := Probes(texts, keys[..i], visor), IsOnline(keys[i], texts, visor(i));
        ghost var dead, events := DeadKeys(keys[..i], ps), ProbeLog(ps);
        ProbeStep(texts, keys, visor, i);
        count := TestVPN(keys[i], visor(i), count);
        AppendAssoc(old(deadVPNs), dead, if p.online then [] else [Hex(keys[i])]);
        AppendAssoc(old(log), events, VisorEvents(p.calls));
      }
      assert keys[..|keys|] == keys;
    }

    /** One deregistration cycle; returns the number of servers found online. */
    method Deregister(env: CycleEnv) returns (onlineVpnCount: nat)
      modifies this
      ensures Abstract() == DeregisterCycle(setup, old(Abstract()), env).state
      ensures onlineVpnCount == DeregisterCycle(setup, old(Abstract()), env).online
      ensures onlineVpnCount + |deadVPNs| == |vpnKeys|
    {
      CycleSummary(setup, Abstract(), env);
      ghost var st := Abstract();
      GetVPNKeys(env.roster);
      onlineVpnCount := 0;
      deadVPNs := [];
      if |vpnKeys| == 0 {
        CycleWithoutKeys(setup, st, env);
        return;
      }
      ghost var ps := Probes(setup.texts, vpnKeys, env.visor);
      ghost var fetched := log;
      onlineVpnCount := ProbeAll(env.visor, onlineVpnCount);
      assert deadVPNs == DeadKeys(vpnKeys, ps) && log == fetched + ProbeLog(ps);
      if |deadVPNs| > 0 {
        VpnDeregister(deadVPNs, env.report);
      }
      CycleWithKeys(setup, st, env, vpnKeys, ps, deadVPNs);
    }

    /** Runs the n-th cycle of the loop. */
    method NextCycle(envs: nat -> CycleEnv, n: nat, ghost start: State)
      requires Abstract() == Cycles(setup, start, envs, n)
      modifies this
      ensures Abstract() == Cycles(setup, start, envs, n + 1)
    {
      ghost var before := Abstract();
      var _ := Deregister(envs(n));
      CyclesStep(setup, start, envs, n, before, Abstract());
    }

    /**
     * The background loop, bounded by a sequence of cancellation flags: the
     * flag is checked before each cycle, and the first set flag ends the
     * loop; `envs(i)` answers the i-th cycle.
     */
    method InitDeregistrationLoop(cancels: seq<bool>, envs: nat -> CycleEnv) returns (cycles: nat)
      modifies this
      ensures cycles == FirstCancel(cancels)
      ensures Abstract() == Cycles(setup, old(Abstract()), envs, cycles)
    {
      cycles := 0;
      while cycles < |cancels| && !cancels[cycles]
        invariant cycles <= |cancels|
        invariant forall j :: 0 <= j < cycles ==> !cancels[j]
        invariant Abstract() == Cycles(setup, old(Abstract()), envs, cycles)
      {
        NextCycle(envs, cycles, old(Abstract()));
        cycles := cycles + 1;
      }
      FirstCancelIsFirst(cancels, cycles);
    }
  }
}
