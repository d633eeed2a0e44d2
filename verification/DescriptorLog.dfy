/** Every descriptor request of a download, in order, with the reply it got; and what may be read off such a log. */
module DescriptorLog {
  import opened Basics
  import opened ModulePlan
  import opened ModuleEnv

  /** Call number `at`, in attempt number `attempt` and with past verdicts `honoured` or not, asked `peer` for its
      descriptor and got `reply`. */
  datatype Asking = Asking(peer: Peer, at: nat, reply: Reply<ModuleInfo>, attempt: nat, honoured: bool)

  function Peers(log: seq<Asking>): (r: seq<Peer>)
    ensures |r| == |log| && forall k :: 0 <= k < |log| ==> r[k] == log[k].peer
  {
    seq(|log|, k requires 0 <= k < |log| => log[k].peer)
  }

  /** From entry `from` on, every reply is the one that holder gave to that call. */
  ghost predicate Real(env: Env, log: seq<Asking>, from: nat) {
    forall k :: from <= k < |log| ==> log[k].reply == env.moduleInfo(log[k].at, log[k].peer)
  }

  /** Once a holder has answered it is never asked again. */
  ghost predicate NeverReasked(log: seq<Asking>, from: nat) {
    forall j, k :: from <= j < k < |log| && log[j].reply.Answered? ==> log[k].peer != log[j].peer
  }

  ghost predicate AnsweredIn(log: seq<Asking>, from: nat, answered: set<Peer>) {
    forall k :: from <= k < |log| && log[k].reply.Answered? ==> log[k].peer in answered
  }

  /** The part of the log that one call wrote, whose answering holders are among `answered`. */
  ghost predicate Logged(env: Env, log: seq<Asking>, from: nat, answered: set<Peer>) {
    from <= |log| && Real(env, log, from) && NeverReasked(log, from) && AnsweredIn(log, from, answered)
  }

  /** A reply after which the next holder is asked: none in time, or a refusal another holder may make good. */
  ghost predicate PassedOver(reply: Reply<ModuleInfo>) {
    reply.TimedOut? || (reply.Refused? && reply.error.IsRecoverable())
  }

  /** One pass over holders: it ends with the first reply that is not passed over, if there is one. */
  ghost predicate Pass(env: Env, round: seq<Asking>) {
    Real(env, round, 0) && forall k :: 0 <= k < |round| - 1 ==> PassedOver(round[k].reply)
  }

  /** A pass that has not ended yet. */
  ghost predicate NoAnswer(env: Env, round: seq<Asking>) {
    Real(env, round, 0) && forall k :: 0 <= k < |round| ==> PassedOver(round[k].reply)
  }

  /** The calls of `round` are numbered from `from` to before `to`. */
  ghost predicate Numbered(round: seq<Asking>, from: nat, to: nat) {
    forall k :: 0 <= k < |round| ==> from <= round[k].at < to
  }

  /** All of `round` belongs to one attempt. */
  ghost predicate Labelled(round: seq<Asking>, attempt: nat, honoured: bool) {
    forall k :: 0 <= k < |round| ==> round[k].attempt == attempt && round[k].honoured == honoured
  }

  lemma OneMoreAsked(env: Env, round: seq<Asking>, peer: Peer, from: nat, at: nat, attempt: nat, honoured: bool)
    requires NoAnswer(env, round) && Numbered(round, from, at) && from <= at && Labelled(round, attempt, honoured)
    ensures var reply := env.moduleInfo(at, peer);
            var more := round + [Asking(peer, at, reply, attempt, honoured)];
            && Pass(env, more) && Peers(more) == Peers(round) + [peer] && Numbered(more, from, at + 1)
            && Labelled(more, attempt, honoured) && (PassedOver(reply) ==> NoAnswer(env, more))
            && Answerer(more) == if reply.Answered? then {peer} else {}
  {
    assert Peers(round + [Asking(peer, at, env.moduleInfo(at, peer), attempt, honoured)]) == Peers(round) + [peer];
  }

  lemma NoAnswerPass(env: Env, round: seq<Asking>, from: nat, to: nat)
    requires NoAnswer(env, round) && Numbered(round, from, to)
    ensures Pass(env, round) && Answerer(round) == {} && forall p :: p in Peers(round) ==> env.Silent(p, from, to)
  {
    forall p | p in Peers(round) ensures env.Silent(p, from, to) {
      var k :| 0 <= k < |round| && Peers(round)[k] == p;
      assert !env.moduleInfo(round[k].at, p).Answered?;
    }
  }

  /** The holder whose answer ended the pass. */
  ghost function Answerer(round: seq<Asking>): set<Peer> {
    if round != [] && round[|round| - 1].reply.Answered? then {round[|round| - 1].peer} else {}
  }

  lemma PassLogged(env: Env, log: seq<Asking>, from: nat, answered: set<Peer>, round: seq<Asking>)
    requires Logged(env, log, from, answered) && Pass(env, round)
    requires forall p :: p in Peers(round) ==> p !in answered
    ensures Logged(env, log + round, from, answered + Answerer(round))
  {
    var all := log + round;
    forall j, k | from <= j < k < |all| && all[j].reply.Answered? ensures all[k].peer != all[j].peer {
      if j < |log| <= k {
        assert all[k].peer == Peers(round)[k - |log|];
      }
    }
    forall k | from <= k < |all| && all[k].reply.Answered? ensures all[k].peer in answered + Answerer(round) {
      if k >= |log| {
        assert all[k] == round[k - |log|];
      }
    }
  }

  /** `peer` answered, in the log from `from` up to entry `to`. */
  ghost predicate AnsweredBefore(log: seq<Asking>, from: nat, to: nat, peer: Peer) {
    exists j: nat :: from <= j < to && j < |log| && log[j].peer == peer && log[j].reply.Answered?
  }

  /** Of the `located` holders no one is left to ask before entry `k` but remembered ones: each other has answered. */
  ghost predicate NoOneElse(log: seq<Asking>, from: nat, k: nat, located: seq<Peer>, remembered: seq<Peer>) {
    forall p :: p in located ==> p in remembered || AnsweredBefore(log, from, k, p)
  }

  /** While past verdicts are honoured no remembered holder is asked; they stop being honoured only when no one else is
      left. */
  ghost predicate LastResort(log: seq<Asking>, from: nat, located: seq<Peer>, remembered: seq<Peer>) {
    forall k: nat :: from <= k < |log| ==>
      if log[k].honoured then remembered != [] && log[k].peer !in remembered
      else remembered == [] || NoOneElse(log, from, k, located, remembered)
  }

  lemma StillAnswered(log: seq<Asking>, from: nat, to: nat, peer: Peer, more: seq<Asking>, later: nat)
    requires AnsweredBefore(log, from, to, peer) && log <= more && to <= later
    ensures AnsweredBefore(more, from, later, peer)
  {
    var j: nat :| from <= j < to && j < |log| && log[j].peer == peer && log[j].reply.Answered?;
    assert more[j] == log[j];
  }

  lemma StillNoOneElse(log: seq<Asking>, from: nat, k: nat, located: seq<Peer>, remembered: seq<Peer>,
                       more: seq<Asking>, later: nat)
    requires NoOneElse(log, from, k, located, remembered) && log <= more && k <= later
    ensures NoOneElse(more, from, later, located, remembered)
  {
    forall p | p in located && p !in remembered ensures AnsweredBefore(more, from, later, p) {
      StillAnswered(log, from, k, p, more, later);
    }
  }

  lemma LastResortStill(log: seq<Asking>, from: nat, located: seq<Peer>, remembered: seq<Peer>, round: seq<Asking>,
                        attempt: nat, honoured: bool)
    requires from <= |log| && LastResort(log, from, located, remembered) && Labelled(round, attempt, honoured)
    requires if honoured then remembered != [] && forall p :: p in Peers(round) ==> p !in remembered
             else remembered == [] || NoOneElse(log, from, |log|, located, remembered)
    ensures LastResort(log + round, from, located, remembered)
  {
    var all := log + round;
    forall k: nat | from <= k < |all|
      ensures if all[k].honoured then remembered != [] && all[k].peer !in remembered
              else remembered == [] || NoOneElse(all, from, k, located, remembered)
    {
      if k < |log| {
        if !log[k].honoured && remembered != [] {
          StillNoOneElse(log, from, k, located, remembered, all, k);
        }
      } else {
        assert all[k].peer == Peers(round)[k - |log|];
        if !honoured && remembered != [] {
          StillNoOneElse(log, from, |log|, located, remembered, all, k);
        }
      }
    }
  }

  /** Fewer than `attempts` attempts: every holder asked was located, attempts come in order, one with every request at
      most, and an answer ends its attempt. */
  ghost predicate Tried(env: Env, log: seq<Asking>, from: nat, attempts: nat) {
    && (forall k :: from <= k < |log| ==>
          env.Found(log[k].peer) && log[k].attempt < attempts && log[k].attempt <= k - from)
    && (forall j, k :: from <= j < k < |log| ==>
          if log[j].reply.Answered? then log[j].attempt < log[k].attempt else log[j].attempt <= log[k].attempt)
  }

  lemma TriedMore(env: Env, log: seq<Asking>, from: nat, attempts: nat, round: seq<Asking>, honoured: bool)
    requires from <= |log| && Tried(env, log, from, attempts) && Pass(env, round) && Labelled(round, attempts, honoured)
    requires env.AllFound(Peers(round)) && (round == [] || attempts <= |log| - from)
    ensures Tried(env, log + round, from, attempts + 1)
  {
    hide Env.Found;
    var all := log + round;
    forall k | |log| <= k < |all| ensures env.Found(all[k].peer) {
      assert Peers(round)[k - |log|] == all[k].peer;
    }
  }

  /** The error a pass without an answer ends with. */
  function Ending(reply: Reply<ModuleInfo>): DownloadError {
    if reply.Refused? && !reply.error.IsRecoverable() then reply.error else NotFound
  }

  /** A located holder that is not remembered and never answers keeps every remembered one from being asked. */
  lemma SilenceKeepsMemory(env: Env, log: seq<Asking>, from: nat, located: seq<Peer>, remembered: seq<Peer>,
                           silent: Peer)
    requires Real(env, log, from) && LastResort(log, from, located, remembered)
    requires remembered != [] && silent in located && silent !in remembered
    requires forall t: nat :: !env.moduleInfo(t, silent).Answered?
    ensures forall k :: from <= k < |log| ==> log[k].peer !in remembered
  {
    forall k: nat | from <= k < |log| ensures log[k].peer !in remembered {
      assert !AnsweredBefore(log, from, k, silent);
    }
  }

  /** In this call `peer` gave a descriptor that is not a truthful one of the genuine module. */
  ghost predicate Lied(env: Env, log: seq<Asking>, from: nat, peer: Peer, genuine: Bytes) {
    exists k :: from <= k < |log| && log[k].peer == peer && log[k].reply.Answered?
                && !Acceptable(env.sha, env.maxModuleSize, log[k].reply.value, genuine)
  }

  /** The blame log grew from `was` to `now`; with a fair anchor and no hash collision, each holder it grew by lied in
      this call. */
  ghost predicate BlamedFairly(env: Env, was: seq<Peer>, now: seq<Peer>, genuine: Bytes, log: seq<Asking>, from: nat) {
    && was <= now
    && (Injective(env.sha) && env.AnchorIsFair(genuine) ==>
          forall k :: |was| <= k < |now| ==> Lied(env, log, from, now[k], genuine))
  }

  lemma BlamedGrew(env: Env, was: seq<Peer>, now: seq<Peer>, genuine: Bytes, log: seq<Asking>, from: nat)
    requires BlamedFairly(env, was, now, genuine, log, from)
    ensures was <= now
  {
    hide Injective, Env.AnchorIsFair, Lied;
  }

  lemma BlamedStill(env: Env, was: seq<Peer>, now: seq<Peer>, genuine: Bytes, log: seq<Asking>, from: nat,
                    round: seq<Asking>)
    requires BlamedFairly(env, was, now, genuine, log, from)
    ensures BlamedFairly(env, was, now, genuine, log + round, from)
  {
    hide Injective, Env.AnchorIsFair;
    forall p | Lied(env, log, from, p, genuine) ensures Lied(env, log + round, from, p, genuine) {
      var k :| from <= k < |log| && log[k].peer == p && log[k].reply.Answered?
               && !Acceptable(env.sha, env.maxModuleSize, log[k].reply.value, genuine);
      assert (log + round)[k] == log[k];
    }
  }

  lemma BlamedOneMore(env: Env, base: seq<Peer>, before: seq<Peer>, after: seq<Peer>, source: Peer, genuine: Bytes,
                      log: seq<Asking>, from: nat)
    requires BlamedFairly(env, base, before, genuine, log, from)
    requires after == before || (after == before + [source] && BlamedFairly(env, [], [source], genuine, log, from))
    ensures BlamedFairly(env, base, after, genuine, log, from)
  {
    hide Injective, Env.AnchorIsFair, Lied;
    if after != before {
      assert [source][0] == source;
    }
  }

  lemma BlamedNow(env: Env, source: Peer, info: ModuleInfo, genuine: Bytes, log: seq<Asking>, from: nat)
    requires from < |log| && log[|log| - 1].peer == source && log[|log| - 1].reply == Answered(info)
    requires Injective(env.sha) && env.AnchorIsFair(genuine) ==>
               !Acceptable(env.sha, env.maxModuleSize, info, genuine)
    ensures BlamedFairly(env, [], [source], genuine, log, from)
  {
    hide Injective, Env.AnchorIsFair, Acceptable;
  }

  /** A holder whose every descriptor is truthful is not blamed in this call. */
  lemma TruthfulNeverBlamed(env: Env, was: seq<Peer>, now: seq<Peer>, genuine: Bytes, log: seq<Asking>, from: nat,
                            peer: Peer)
    requires Injective(env.sha) && env.AnchorIsFair(genuine)
    requires Real(env, log, from) && BlamedFairly(env, was, now, genuine, log, from)
    requires env.NeverLies(peer, genuine)
    ensures peer !in now[|was|..]
  {
    forall k | from <= k < |log| && log[k].peer == peer && log[k].reply.Answered?
      ensures Acceptable(env.sha, env.maxModuleSize, log[k].reply.value, genuine)
    {
      assert env.AnswersTruthfully(log[k].at, peer, genuine);
    }
  }
}
