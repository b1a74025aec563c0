/** The line collection (`Lines`, shared/src/lib.rs) and its reconciliation
    `Lines::merge`. Line ids are `usize` in the source and `nat` here; no
    arithmetic is done on them. */
module LineStore {
  import opened Wrappers
  import opened Canvas

  /** The working set `merge` starts from: the changed ids, or the empty set
      when there are none (`unwrap_or_default`). */
  function ChangedIds(changedLines: Option<set<nat>>): set<nat>
  {
    match changedLines
    case Some(ids) => ids
    case None => {}
  }

  /** The changed ids that the pass over `other` does not consume: consumed are
      exactly those already stored in `self` and present in `other`. */
  function Leftover(self: map<nat, Line>, other: map<nat, Line>, changedLines: Option<set<nat>>): set<nat>
  {
    ChangedIds(changedLines) - (self.Keys * other.Keys)
  }

  /** Whether the incoming line for `id` replaces or creates the stored one:
      a new id is always taken, an existing one only when it is changed. */
  predicate TakesIncoming(self: map<nat, Line>, other: map<nat, Line>, changedLines: Option<set<nat>>, id: nat)
  {
    id in other && (id !in self || id in ChangedIds(changedLines))
  }

  /** The collection after the pass of `Lines::merge` over `other`, before
      the leftover changed ids are removed. */
  function AfterPass(self: map<nat, Line>, other: map<nat, Line>, changedLines: Option<set<nat>>,
                     rect: Rect, mode: MergeMode, maps: CanvasMaps): map<nat, Line>
  {
    map id | id in self.Keys + other.Keys ::
      if TakesIncoming(self, other, changedLines, id) then Transformed(other[id], rect, mode, maps)
      else self[id]
  }

  /** One step of the pass: taking in one further incoming line `(k, line)`
      writes its transformed copy when the rules take it and changes nothing
      otherwise. */
  lemma PassStep(self: map<nat, Line>, seen: map<nat, Line>, changedLines: Option<set<nat>>,
                 rect: Rect, mode: MergeMode, maps: CanvasMaps, k: nat, line: Line)
    requires k !in seen
    ensures var before := AfterPass(self, seen, changedLines, rect, mode, maps);
            var after := AfterPass(self, seen[k := line], changedLines, rect, mode, maps);
            after == if k !in self || k in ChangedIds(changedLines)
                     then before[k := Transformed(line, rect, mode, maps)] else before
  {
  }

  /** The same step consumes `k` from the leftover changed ids exactly when
      `k` is stored. */
  lemma LeftoverStep(self: map<nat, Line>, seen: map<nat, Line>, changedLines: Option<set<nat>>,
                     k: nat, line: Line)
    requires k !in seen
    ensures Leftover(self, seen[k := line], changedLines)
         == if k in self then Leftover(self, seen, changedLines) - {k} else Leftover(self, seen, changedLines)
  {
  }

  /** The collection `Lines::merge` leaves behind, in closed form. */
  function Merged(self: map<nat, Line>, other: map<nat, Line>, changedLines: Option<set<nat>>,
                  rect: Rect, mode: MergeMode, maps: CanvasMaps): map<nat, Line>
  {
    AfterPass(self, other, changedLines, rect, mode, maps) - Leftover(self, other, changedLines)
  }

  // Properties of the closed form, one rule of `merge` each.

  /** No-clobber: a stored line whose id is not changed survives unchanged,
      whatever `other` holds for that id. */
  lemma MergeKeepsUnchanged(self: map<nat, Line>, other: map<nat, Line>, changedLines: Option<set<nat>>,
                            rect: Rect, mode: MergeMode, maps: CanvasMaps, id: nat)
    requires id in self && id !in ChangedIds(changedLines)
    ensures var r := Merged(self, other, changedLines, rect, mode, maps);
            id in r && r[id] == self[id]
  {
  }

  /** Update: a stored, changed id that `other` holds gets `other`'s line,
      moved point by point; its length, stroke and flag are `other`'s. */
  lemma MergeUpdatesChanged(self: map<nat, Line>, other: map<nat, Line>, changedLines: Option<set<nat>>,
                            rect: Rect, mode: MergeMode, maps: CanvasMaps, id: nat)
    requires id in self && id in other && id in ChangedIds(changedLines)
    ensures var r := Merged(self, other, changedLines, rect, mode, maps);
            && id in r && r[id] == Transformed(other[id], rect, mode, maps)
            && |r[id].coordinates| == |other[id].coordinates|
            && r[id].stroke == other[id].stroke && r[id].flag == other[id].flag
            && forall i :: 0 <= i < |other[id].coordinates| ==>
                 r[id].coordinates[i] == ModeMap(mode, maps)(other[id].coordinates[i], rect)
  {
  }

  /** Insert: a new id that is not changed is stored as `other`'s line, moved. */
  lemma MergeInsertsNew(self: map<nat, Line>, other: map<nat, Line>, changedLines: Option<set<nat>>,
                        rect: Rect, mode: MergeMode, maps: CanvasMaps, id: nat)
    requires id !in self && id in other && id !in ChangedIds(changedLines)
    ensures var r := Merged(self, other, changedLines, rect, mode, maps);
            id in r && r[id] == Transformed(other[id], rect, mode, maps)
  {
  }

  /** Removal: a changed id not consumed by an update is gone afterwards. That
      covers a stored id missing from `other`, and also a new id that `other`
      holds: it is inserted by the pass and removed again by the drain. */
  lemma MergeRemovesLeftover(self: map<nat, Line>, other: map<nat, Line>, changedLines: Option<set<nat>>,
                             rect: Rect, mode: MergeMode, maps: CanvasMaps, id: nat)
    requires id in ChangedIds(changedLines) && !(id in self && id in other)
    ensures id !in Merged(self, other, changedLines, rect, mode, maps)
    ensures id in other ==> id in AfterPass(self, other, changedLines, rect, mode, maps)
  {
  }

  /** Exactly which ids the result holds. */
  lemma MergedKeys(self: map<nat, Line>, other: map<nat, Line>, changedLines: Option<set<nat>>,
                   rect: Rect, mode: MergeMode, maps: CanvasMaps, id: nat)
    ensures id in Merged(self, other, changedLines, rect, mode, maps)
        <==> (id in self || id in other)
             && (id !in ChangedIds(changedLines) || (id in self && id in other))
  {
  }

  /** Bounded key set: no id outside `self` and `other` appears, and an id that
      is neither incoming nor changed is left exactly as it was (present with
      the same line, or absent). */
  lemma MergeBounded(self: map<nat, Line>, other: map<nat, Line>, changedLines: Option<set<nat>>,
                     rect: Rect, mode: MergeMode, maps: CanvasMaps)
    ensures Merged(self, other, changedLines, rect, mode, maps).Keys <= self.Keys + other.Keys
    ensures var r := Merged(self, other, changedLines, rect, mode, maps);
            forall id :: id !in other && id !in ChangedIds(changedLines) ==>
              (id in r <==> id in self) && (id in r ==> r[id] == self[id])
  {
  }

  /** Without a changed set nothing stored is replaced or removed: the result
      is `self` together with the moved copies of the new lines of `other`. */
  lemma MergeWithoutChangedLines(self: map<nat, Line>, other: map<nat, Line>,
                                 rect: Rect, mode: MergeMode, maps: CanvasMaps)
    ensures var r := Merged(self, other, None, rect, mode, maps);
            && r.Keys == self.Keys + other.Keys
            && r == self + map id | id in other.Keys - self.Keys :: Transformed(other[id], rect, mode, maps)
  {
  }

  /** Merging the same lines again without a changed set changes nothing. */
  lemma MergeWithoutChangedLinesIdempotent(self: map<nat, Line>, other: map<nat, Line>,
                                           rect: Rect, mode: MergeMode, maps: CanvasMaps)
    ensures var once := Merged(self, other, None, rect, mode, maps);
            Merged(once, other, None, rect, mode, maps) == once
  {
  }

  /** Into an empty collection (after `clear`) every incoming line that is not
      changed arrives moved, and nothing else does. */
  lemma MergeIntoEmpty(other: map<nat, Line>, changedLines: Option<set<nat>>,
                       rect: Rect, mode: MergeMode, maps: CanvasMaps)
    ensures var r := Merged(map[], other, changedLines, rect, mode, maps);
            && r.Keys == other.Keys - ChangedIds(changedLines)
            && forall id :: id in r ==> r[id] == Transformed(other[id], rect, mode, maps)
  {
  }

  /** The copy of an incoming line that `merge` stores: cloned, then moved
      to or from canvas space as `mergeMode` says. */
  method IncomingCopy(otherLine: Line, canvasRect: Rect, mergeMode: MergeMode, maps: CanvasMaps)
    returns (line: Line)
    ensures line == Transformed(otherLine, canvasRect, mergeMode, maps)
  {
    match mergeMode {
      case ToCanvas => line := LineToCanvas(otherLine, canvasRect, maps);
      case FromCanvas => line := LineFromCanvas(otherLine, canvasRect, maps);
    }
  }

  /** The line collection shared between clients and server (`Lines`). */
  class Lines {
    var entries: map<nat, Line>

    /** `Lines::default`: no lines. */
    constructor ()
      ensures entries == map[]
    {
      entries := map[];
    }

    /** `Lines::merge`: folds `other` into this collection. An existing line is
        replaced only when its id is changed; a new id is inserted; changed ids
        left over after the pass are removed. */
    method Merge(other: map<nat, Line>, changedLines: Option<set<nat>>, canvasRect: Rect,
                 mergeMode: MergeMode, maps: CanvasMaps)
      modifies this
      ensures entries == Merged(old(entries), other, changedLines, canvasRect, mergeMode, maps)
    {
      var changed := MergeIncoming(other, changedLines, canvasRect, mergeMode, maps);
      changed := Drain(changed);
      // the closing `assert!` of the source: nothing is left in the working set
      assert changed == {};
    }

    /** The pass of `merge` over `other`. Returns the working set of changed
        ids with those consumed by an update taken out. */
    method MergeIncoming(other: map<nat, Line>, changedLines: Option<set<nat>>, canvasRect: Rect,
                         mergeMode: MergeMode, maps: CanvasMaps)
      returns (changed: set<nat>)
      modifies this
      ensures entries == AfterPass(old(entries), other, changedLines, canvasRect, mergeMode, maps)
      ensures changed == Leftover(old(entries), other, changedLines)
    {
      ghost var self := entries;
      ghost var seen: map<nat, Line> := map[];
      var areChangedLines := changedLines.Some?;
      changed := if changedLines.Some? then changedLines.value else {};
      var pending := other.Keys;
      while pending != {}
        invariant pending <= other.Keys
        invariant seen.Keys == other.Keys - pending
        invariant forall id :: id in seen ==> seen[id] == other[id]
        invariant changed == Leftover(self, seen, changedLines)
        invariant entries == AfterPass(self, seen, changedLines, canvasRect, mergeMode, maps)
        decreases pending
      {
        var lineId :| lineId in pending;
        PassStep(self, seen, changedLines, canvasRect, mergeMode, maps, lineId, other[lineId]);
        LeftoverStep(self, seen, changedLines, lineId, other[lineId]);
        changed := TakeIn(lineId, other[lineId], areChangedLines, changed, canvasRect, mergeMode, maps);
        seen := seen[lineId := other[lineId]];
        pending := pending - {lineId};
      }
      assert seen == other;
    }

    /** The body of the pass for one incoming `(lineId, otherLine)`: an
        existing line is overwritten only when its id is changed (and the id is
        then consumed); a new id is inserted and stays in the working set. */
    method TakeIn(lineId: nat, otherLine: Line, areChangedLines: bool, changed: set<nat>,
                  canvasRect: Rect, mergeMode: MergeMode, maps: CanvasMaps)
      returns (changed': set<nat>)
      modifies this
      ensures var overwrite := lineId in old(entries) && areChangedLines && lineId in changed;
              var insert := lineId !in old(entries);
              && (overwrite || insert ==>
                  entries == old(entries)[lineId := Transformed(otherLine, canvasRect, mergeMode, maps)])
              && (!overwrite && !insert ==> entries == old(entries))
              && changed' == if overwrite then changed - {lineId} else changed
    {
      changed' := changed;
      if lineId in entries {
        if areChangedLines && lineId in changed' {
          changed' := changed' - {lineId};
          var line := IncomingCopy(otherLine, canvasRect, mergeMode, maps);
          entries := entries[lineId := line];
        }
      } else {
        var line := IncomingCopy(otherLine, canvasRect, mergeMode, maps);
        entries := entries[lineId := line];
      }
    }

    /** The draining loop of `merge`: removes every id of `changed`, emptying it. */
    method Drain(changed: set<nat>) returns (rest: set<nat>)
      modifies this
      ensures entries == old(entries) - changed
      ensures rest == {}
    {
      rest := changed;
      while rest != {}
        invariant rest <= changed
        invariant entries == old(entries) - (changed - rest)
        decreases rest
      {
        var lineId :| lineId in rest;
        entries := entries - {lineId};
        rest := rest - {lineId};
      }
    }

    /** `Lines::clear`: removes every line. */
    method Clear()
      modifies this
      ensures entries == map[]
    {
      entries := map[];
    }
  }
}
