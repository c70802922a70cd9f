/** What `live_work_reasons` counts: the ledger's entries by kind and label. */
module LiveCounts {
  import opened Wrappers
  import opened Lifecycle

  /** What one line of `live_work_reasons` counts. */
  datatype Reason = Reason(entries: nat, stuck: nat)

  type ReasonKey = (Kind, Option<string>)

  function EntriesOf(ledger: map<Key, Work>, seen: set<Key>, r: ReasonKey): set<Key> {
    set k | k in ledger && k in seen && ledger[k].kind == r.0 && ledger[k].name == r.1
  }

  function StuckOf(ledger: map<Key, Work>, seen: set<Key>, r: ReasonKey): set<Key> {
    set k | k in ledger && k in seen && ledger[k].kind == r.0 && ledger[k].name == r.1 && ledger[k].stuck
  }

  /** The counts are exact, and there is a line exactly for what occurs. */
  ghost predicate CountsFit(ledger: map<Key, Work>, seen: set<Key>, counts: map<ReasonKey, Reason>) {
    forall r: ReasonKey :: CountFits(ledger, seen, counts, r)
  }

  ghost predicate CountFits(ledger: map<Key, Work>, seen: set<Key>, counts: map<ReasonKey, Reason>, r: ReasonKey) {
    && (r in counts <==> EntriesOf(ledger, seen, r) != {})
    && (r in counts ==> counts[r] == Reason(|EntriesOf(ledger, seen, r)|, |StuckOf(ledger, seen, r)|))
  }

  lemma EntriesGrow(ledger: map<Key, Work>, seen: set<Key>, k: Key, r: ReasonKey)
    requires k in ledger && k !in seen
    ensures var mine := ledger[k].kind == r.0 && ledger[k].name == r.1;
            && EntriesOf(ledger, seen + {k}, r) == EntriesOf(ledger, seen, r) + (if mine then {k} else {})
            && StuckOf(ledger, seen + {k}, r)
               == StuckOf(ledger, seen, r) + (if mine && ledger[k].stuck then {k} else {})
            && k !in EntriesOf(ledger, seen, r) && k !in StuckOf(ledger, seen, r)
  {
  }

  lemma Counted(ledger: map<Key, Work>, seen: set<Key>, k: Key, before: map<ReasonKey, Reason>,
                after: map<ReasonKey, Reason>)
    requires CountsFit(ledger, seen, before) && k in ledger && k !in seen
    requires var r := (ledger[k].kind, ledger[k].name);
             var was := if r in before then before[r] else Reason(0, 0);
             && after == before[r := Reason(was.entries + 1, was.stuck + if ledger[k].stuck then 1 else 0)]
    ensures CountsFit(ledger, seen + {k}, after)
  {
    hide EntriesOf, StuckOf;
    forall r: ReasonKey
      ensures CountFits(ledger, seen + {k}, after, r)
    {
      CountedFor(ledger, seen, k, before, after, r);
    }
  }

  lemma CountedFor(ledger: map<Key, Work>, seen: set<Key>, k: Key, before: map<ReasonKey, Reason>,
                   after: map<ReasonKey, Reason>,
                   r: ReasonKey)
    requires CountFits(ledger, seen, before, r) && k in ledger && k !in seen
    requires var m := (ledger[k].kind, ledger[k].name);
             var was := if m in before then before[m] else Reason(0, 0);
             && after == before[m := Reason(was.entries + 1, was.stuck + if ledger[k].stuck then 1 else 0)]
    ensures CountFits(ledger, seen + {k}, after, r)
  {
    EntriesGrow(ledger, seen, k, r);
    StuckAreEntries(ledger, seen, r);
    hide EntriesOf, StuckOf;
  }

  lemma StuckAreEntries(ledger: map<Key, Work>, seen: set<Key>, r: ReasonKey)
    ensures EntriesOf(ledger, seen, r) == {} ==> StuckOf(ledger, seen, r) == {}
  {
    assert StuckOf(ledger, seen, r) <= EntriesOf(ledger, seen, r);
  }

  lemma EmptyCounts(ledger: map<Key, Work>, counts: map<ReasonKey, Reason>)
    requires CountsFit(ledger, ledger.Keys, counts)
    ensures counts == map[] <==> ledger == map[]
  {
    if k :| k in ledger {
      var r := (ledger[k].kind, ledger[k].name);
      assert k in EntriesOf(ledger, ledger.Keys, r) && CountFits(ledger, ledger.Keys, counts, r);
    }
    if r :| r in counts { assert CountFits(ledger, ledger.Keys, counts, r); }
  }
}
