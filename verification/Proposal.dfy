/** The one-place approval slot and the proposal counter (src/bot/proposal.rs,
    src/bot/commands.rs:215-296, src/bot/mod.rs:13-23). */
module Proposal {
  import opened Numerics

  // ---------------------------------------------------------------------
  // The slot and the counter as values: ids only
  // ---------------------------------------------------------------------

  /** `clear_pending`: remove the proposal with this id, leave any other. */
  function Cleared(slot: Option<nat>, id: nat): Option<nat> {
    if slot == Some(id) then None else slot
  }

  /** `fetch_add` on a counter that its first use seeds with the clock. */
  function NextId(counter: Option<nat>, now: nat): nat {
    if counter.Some? then counter.value else if now >= 1 then now else 1
  }

  // ---------------------------------------------------------------------
  // The shared objects
  // ---------------------------------------------------------------------

  /** A oneshot channel. */
  class Oneshot {
    var value: Option<bool>
    var receiverAlive: bool
    var senderAlive: bool

    constructor ()
      ensures value.None? && receiverAlive && senderAlive
    {
      value, receiverAlive, senderAlive := None, true, true;
    }

    /** `tx.send(v)`: consumes the sender; fails once the receiver is dropped. */
    method Send(v: bool) returns (ok: bool)
      requires senderAlive
      modifies this
      ensures ok == old(receiverAlive) && !senderAlive && receiverAlive == old(receiverAlive)
      ensures value == if ok then Some(v) else old(value)
    {
      senderAlive := false;
      ok := receiverAlive;
      if ok {
        value := Some(v);
      }
    }
  }

  datatype PendingApproval = PendingApproval(id: nat, tx: Oneshot)

  datatype ApproveOutcome =
    | Matched(pending: PendingApproval)
    | NoPending
    | WrongId(pendingId: nat)

  /** What the bot answers to `/approve`. */
  datatype Reply = Executing(id: nat) | AlreadyExpired(id: nat) | NoneToApprove | OtherPending(pendingId: nat)

  class ApprovalSlot {
    var pending: Option<PendingApproval>
    var counter: Option<nat>

    constructor ()
      ensures pending.None? && counter.None?
    {
      pending, counter := None, None;
    }

    function PendingId(): Option<nat>
      reads this
    {
      if pending.Some? then Some(pending.value.id) else None
    }

    /** The installing half of `send_proposal`, under the slot's lock. */
    method Install(now: nat) returns (id: nat, rx: Oneshot)
      modifies this
      ensures id == NextId(old(counter), now) && counter == Some(id + 1)
      ensures old(counter).None? ==> id == if now > 1 then now else 1
      ensures old(counter).Some? ==> id == old(counter).value
      ensures fresh(rx) && rx.value.None? && rx.receiverAlive && rx.senderAlive
      ensures pending == Some(PendingApproval(id, rx))
    {
      id := NextId(counter, now);
      counter := Some(id + 1);
      rx := new Oneshot();
      pending := Some(PendingApproval(id, rx));
    }

    method ClearPending(id: nat)
      modifies this`pending
      ensures PendingId() == Cleared(old(PendingId()), id)
      ensures old(PendingId()) != Some(id) ==> pending == old(pending)
    {
      if pending.Some? && pending.value.id == id {
        pending := None;
      }
    }

    /** `send_proposal`: install, then send the message. On a send failure the
        slot holds no proposal of this call and the caller gets no receiver. */
    method SendProposal(now: nat, telegramOk: bool) returns (id: nat, rx: Option<Oneshot>)
      modifies this
      ensures id == NextId(old(counter), now) && counter == Some(id + 1)
      ensures telegramOk ==> rx.Some? && fresh(rx.value) && pending == Some(PendingApproval(id, rx.value))
                             && rx.value.value.None? && rx.value.receiverAlive && rx.value.senderAlive
      ensures !telegramOk ==> rx.None? && pending.None?
    {
      var channel;
      id, channel := Install(now);
      if telegramOk {
        rx := Some(channel);
      } else {
        ClearPending(id);
        rx := None;
      }
    }

    /** Matching `/approve <id>` under the lock: only the exact id is taken, and
        taking empties the slot. */
    method Take(requested: nat) returns (outcome: ApproveOutcome)
      modifies this`pending
      ensures outcome.Matched? <==> old(PendingId()) == Some(requested)
      ensures outcome.Matched? ==> Some(outcome.pending) == old(pending) && pending.None?
      ensures !outcome.Matched? ==> pending == old(pending)
      ensures outcome.NoPending? <==> old(pending).None?
      ensures outcome.WrongId? ==> old(PendingId()) == Some(outcome.pendingId) && outcome.pendingId != requested
    {
      if pending.None? {
        return NoPending;
      }
      if pending.value.id == requested {
        outcome := Matched(pending.value);
        pending := None;
      } else {
        outcome := WrongId(pending.value.id);
      }
    }

    /** `handle_approve` for a parsed id, when nothing runs between its two
        steps: the bot says "Executing" exactly when the id was pending and its
        receiver was still alive, and then the value true is in the channel. */
    method HandleApprove(requested: nat) returns (reply: Reply)
      requires pending.Some? ==> pending.value.tx.senderAlive
      modifies this`pending, if pending.Some? then {pending.value.tx} else {}
      ensures PendingId() == Cleared(old(PendingId()), requested)
      ensures reply.Executing? <==> old(PendingId()) == Some(requested) && old(pending.value.tx.receiverAlive)
      ensures reply.Executing? ==> reply.id == requested && old(pending).value.tx.value == Some(true)
      ensures reply.AlreadyExpired? <==> old(PendingId()) == Some(requested) && !old(pending.value.tx.receiverAlive)
      ensures reply.NoneToApprove? <==> old(pending).None?
    {
      var outcome := Take(requested);
      match outcome
      case Matched(p) =>
        var ok := p.tx.Send(true);
        reply := if ok then Executing(p.id) else AlreadyExpired(p.id);
      case WrongId(other) => reply := OtherPending(other);
      case NoPending => reply := NoneToApprove;
    }
  }

  // ---------------------------------------------------------------------
  // Ids across restarts
  // ---------------------------------------------------------------------

  /** One process's use of the counter: the second of its first proposal and how
      many proposals it made. */
  datatype Run = Run(seed: nat, count: nat)

  predicate HandedOut(r: Run, id: nat) {
    r.seed <= id < r.seed + r.count
  }

  /** Seeds are readings of a clock that does not run backwards; a run exists
      once it has made a proposal. */
  ghost predicate Chronological(runs: seq<Run>) {
    && (forall i | 0 <= i < |runs| :: runs[i].count >= 1)
    && (forall i, j | 0 <= i <= j < |runs| :: runs[i].seed <= runs[j].seed)
  }

  /** No id was handed out by two processes: a stale `/approve <id>` from one
      process cannot match a proposal of another. */
  ghost predicate DistinctAcrossRuns(runs: seq<Run>) {
    forall i, j, id | 0 <= i < j < |runs| && HandedOut(runs[i], id) :: !HandedOut(runs[j], id)
  }

  /** Every process made at most one proposal per second, counted until the next
      process's first proposal. */
  ghost predicate OnePerSecond(runs: seq<Run>) {
    forall i | 0 < i < |runs| :: runs[i - 1].count <= runs[i].seed - runs[i - 1].seed
  }

  lemma {:induction false} RunsSeparate(runs: seq<Run>, i: nat, j: nat)
    requires Chronological(runs) && OnePerSecond(runs) && i < j < |runs|
    ensures runs[i].seed + runs[i].count <= runs[j].seed
  {
    if i + 1 < j {
      RunsSeparate(runs, i, j - 1);
    }
  }

  /** Ids stay distinct across restarts exactly under the one-per-second rate. */
  lemma DistinctIffOnePerSecond(runs: seq<Run>)
    requires Chronological(runs)
    ensures DistinctAcrossRuns(runs) <==> OnePerSecond(runs)
  {
    if OnePerSecond(runs) {
      forall i, j, id | 0 <= i < j < |runs| && HandedOut(runs[i], id)
        ensures !HandedOut(runs[j], id)
      {
        RunsSeparate(runs, i, j);
      }
    } else {
      var i :| 0 < i < |runs| && runs[i - 1].count > runs[i].seed - runs[i - 1].seed;
      assert HandedOut(runs[i - 1], runs[i].seed) && HandedOut(runs[i], runs[i].seed);
    }
  }

  /** The history after one more proposal: the first of a process opens a run. */
  function Record(runs: seq<Run>, counter: Option<nat>, id: nat): seq<Run> {
    if counter.None? || runs == [] then runs + [Run(id, 1)]
    else
      var last := runs[|runs| - 1];
      runs[..|runs| - 1] + [last.(count := last.count + 1)]
  }
}
