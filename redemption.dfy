/** The redemption transition of one decoded code: derive the path, look it
    up in `Unused`, copy the stored record to `Used`, then delete it from
    `Unused`; every failure on the way collapses to one outcome. */
module Redemption {
  import opened Wrappers
  import opened Tickets
  import opened Store

  /** The terminal classification shown to the operator: the popups
      "Ticket Approved", "Ticket Invalid or Used" and "Scan Error". */
  datatype Outcome = Approved(ticket: Ticket) | Invalid | ScanError

  /** Which of the three store requests of a redemption the store rejects. */
  datatype StoreFaults = StoreFaults(getFails: bool, setFails: bool, removeFails: bool)

  const NoFaults := StoreFaults(false, false, false)

  /** The outcome, the store afterwards and the requests issued, in order. */
  datatype Step = Step(outcome: Outcome, after: Partitions, calls: seq<StoreCall>)

  /** The derived path of a parsed payload, or `None` when decrypting,
      parsing or slicing the key throws. */
  function PathOf(parsed: Option<Ticket>): Option<string>
  {
    match parsed
    case None => None
    case Some(t) =>
      match t.key
      case None => None
      case Some(k) => Some(DerivedPath(t.name, k))
  }

  /** `k` is present in both maps with the same value, or absent from both. */
  ghost predicate SameAt(m: map<string, Record>, m': map<string, Record>, k: string)
  {
    (k in m <==> k in m') && (k in m ==> m[k] == m'[k])
  }

  /** One redemption against the store `before`, given what decrypting and
      parsing the code produced and which store requests fail. */
  function Redeem(before: Partitions, parsed: Option<Ticket>, faults: StoreFaults): (r: Step)
    // The store is consulted only after a successful decrypt, parse and slice.
    ensures PathOf(parsed).None? ==> r == Step(ScanError, before, [])
    ensures PathOf(parsed).Some? ==> r.calls != [] && r.calls[0] == Get(Unused, PathOf(parsed).value)
    // Approved exactly when the ticket is unused and all three requests succeed.
    ensures r.outcome.Approved? <==>
      PathOf(parsed).Some? && PathOf(parsed).value in before.unused && faults == NoFaults
    ensures r.outcome.Approved? ==>
      var p := PathOf(parsed).value;
      && r.outcome.ticket == parsed.value
      && p !in r.after.unused
      && p in r.after.used && r.after.used[p] == before.unused[p]
      && (forall k :: k != p ==> SameAt(before.unused, r.after.unused, k) && SameAt(before.used, r.after.used, k))
      && r.calls == [Get(Unused, p), Set(Used, p, before.unused[p]), Remove(Unused, p)]
    // Invalid exactly when the read succeeds and finds nothing; nothing changes.
    ensures r.outcome.Invalid? <==>
      PathOf(parsed).Some? && !faults.getFails && PathOf(parsed).value !in before.unused
    ensures r.outcome.Invalid? ==> r.after == before && r.calls == [Get(Unused, PathOf(parsed).value)]
    // Each Scan Error path after the path is derived, with its store and requests.
    ensures PathOf(parsed).Some? && faults.getFails ==>
      r == Step(ScanError, before, [Get(Unused, PathOf(parsed).value)])
    ensures PathOf(parsed).Some? && !faults.getFails && PathOf(parsed).value in before.unused && faults.setFails ==>
      var p := PathOf(parsed).value;
      r == Step(ScanError, before, [Get(Unused, p), Set(Used, p, before.unused[p])])
    ensures PathOf(parsed).Some? && !faults.getFails && PathOf(parsed).value in before.unused
            && !faults.setFails && faults.removeFails ==>
      var p := PathOf(parsed).value;
      r == Step(ScanError, Written(before, Used, p, before.unused[p]),
                [Get(Unused, p), Set(Used, p, before.unused[p]), Remove(Unused, p)])
    // The only store change on an error: the copy was written, the removal failed,
    // and the record is then in both partitions.
    ensures r.outcome.ScanError? && r.after != before ==>
      var p := PathOf(parsed).value;
      && PathOf(parsed).Some? && !faults.getFails && !faults.setFails && faults.removeFails
      && p in r.after.unused && r.after.unused == before.unused
      && p in r.after.used && r.after.used == before.used[p := before.unused[p]]
    // Write strictly before remove: a removal is issued only after a successful write.
    ensures forall i :: 0 <= i < |r.calls| && r.calls[i].Remove? ==>
      i == 2 && r.calls[1].Set? && !faults.setFails
    // No path is lost (a `set` may overwrite a record already in `Used`),
    // and `Unused` never gains a path.
    ensures r.after.unused.Keys <= before.unused.Keys
    ensures r.after.unused.Keys + r.after.used.Keys == before.unused.Keys + before.used.Keys
  {
    match PathOf(parsed)
    case None => Step(ScanError, before, [])
    case Some(p) =>
      var read := Get(Unused, p);
      if faults.getFails then Step(ScanError, before, [read])
      else if p !in before.unused then Step(Invalid, before, [read])
      else
        var v := before.unused[p];
        var write := Set(Used, p, v);
        if faults.setFails then Step(ScanError, before, [read, write])
        else
          var copied := Written(before, Used, p, v);
          if faults.removeFails then Step(ScanError, copied, [read, write, Remove(Unused, p)])
          else Step(Approved(parsed.value), Removed(copied, Unused, p), [read, write, Remove(Unused, p)])
  }

  /** One scan handed to the redemption: the parsed payload and the store's faults. */
  datatype Attempt = Attempt(parsed: Option<Ticket>, faults: StoreFaults)

  /** The number of Approved outcomes for path `p` when `attempts` run one
      after the other from `s`. */
  function Approvals(s: Partitions, attempts: seq<Attempt>, p: string): nat
    decreases |attempts|
  {
    if attempts == [] then 0
    else
      var step := Redeem(s, attempts[0].parsed, attempts[0].faults);
      (if step.outcome.Approved? && PathOf(attempts[0].parsed) == Some(p) then 1 else 0)
        + Approvals(step.after, attempts[1..], p)
  }

  /** Under sequential redemption every path is approved at most once, and
      never unless it starts out in `Unused` — whatever the payloads and
      whichever store requests fail, including a removal that leaves the
      record in both partitions. */
  lemma {:induction false} AtMostOneApproval(s: Partitions, attempts: seq<Attempt>, p: string)
    ensures Approvals(s, attempts, p) <= 1
    ensures p !in s.unused ==> Approvals(s, attempts, p) == 0
    decreases |attempts|
  {
    if attempts != [] {
      var step := Redeem(s, attempts[0].parsed, attempts[0].faults);
      AtMostOneApproval(step.after, attempts[1..], p);
    }
  }

  /** A ticket just approved is rejected as Invalid when it is scanned again. */
  lemma ReplayIsInvalid(s: Partitions, t: Ticket, again: StoreFaults)
    requires Redeem(s, Some(t), NoFaults).outcome.Approved?
    requires !again.getFails
    ensures Redeem(Redeem(s, Some(t), NoFaults).after, Some(t), again).outcome == Invalid
  {
  }

  const Alice := Ticket("Alice", Some("ABCDEF123456"), "5551234", "a@x.com")

  /** The stored record, not the decrypted payload, is what moves to `Used`. */
  lemma ScenarioApproved(stored: Record, used: map<string, Record>)
    ensures var r := Redeem(Partitions(map["Alice's ticket ID 123456" := stored], used), Some(Alice), NoFaults);
      && r.outcome == Approved(Alice)
      && r.after.unused == map[]
      && r.after.used == used["Alice's ticket ID 123456" := stored]
  {
    assert DerivedPath("Alice", "ABCDEF123456") == "Alice's ticket ID 123456";
  }

  lemma ScenarioInvalid(s: Partitions, faults: StoreFaults)
    requires "Alice's ticket ID 123456" !in s.unused && !faults.getFails
    ensures Redeem(s, Some(Alice), faults) == Step(Invalid, s, [Get(Unused, "Alice's ticket ID 123456")])
  {
    assert DerivedPath("Alice", "ABCDEF123456") == "Alice's ticket ID 123456";
  }
}
