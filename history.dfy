/**
 * The builder's undo/redo history: a list of snapshots of the generated site
 * with a cursor (`history` and `historyIndex` in pages/AIBuilder.tsx). The
 * functions here are the value-level meaning of the handlers `updateCode`,
 * `handleUndo` and `handleRedo`; the session class in builder.dfy applies them
 * to its fields.
 */
module History {

  /** One generated version of the site: markup, styles, behaviour and the images its placeholders refer to. */
  datatype Snapshot = Snapshot(html: string, css: string, js: string, images: seq<string>)

  /** The entry the history starts with, before anything is generated. */
  const Empty := Snapshot("", "", "", [])

  /** The most entries the history keeps. */
  const Cap := 50

  /** The cursor indexes an entry and the cap is respected. */
  predicate Valid(h: seq<Snapshot>, i: nat) {
    0 < |h| <= Cap && i < |h|
  }

  /** The history a session starts with. */
  lemma InitialValid()
    ensures Valid([Empty], 0)
  {
  }

  /**
   * The images of a new version: the images just sent, or, when none were
   * sent, the images of the version under the cursor.
   */
  function ResolveImages(current: Snapshot, newImages: seq<string>): (r: seq<string>)
    ensures |newImages| > 0 ==> r == newImages
    ensures |newImages| == 0 ==> r == current.images
  {
    if |newImages| > 0 then newImages else current.images
  }

  /** A commit that repeats the version under the cursor, field by field. */
  predicate Redundant(h: seq<Snapshot>, i: nat, candidate: Snapshot)
    requires Valid(h, i)
  {
    h[i] == candidate
  }

  /**
   * `updateCode` on the history: a redundant commit changes nothing; otherwise
   * the entries after the cursor are dropped, the candidate is pushed, the
   * oldest entry is shifted out when the list grows past the cap, and the
   * cursor moves to the last entry.
   */
  function Append(h: seq<Snapshot>, i: nat, candidate: Snapshot): (r: (seq<Snapshot>, nat))
    requires Valid(h, i)
    ensures Valid(r.0, r.1)
    ensures Redundant(h, i, candidate) ==> r == (h, i)
    ensures !Redundant(h, i, candidate) ==>
      && r.1 == |r.0| - 1
      && r.0[r.1] == candidate
      && |r.0| == (if i + 1 < Cap then i + 2 else Cap)
      && forall j :: 0 <= j < r.1 ==> r.0[j] == h[j + i + 2 - |r.0|]
  {
    if Redundant(h, i, candidate) then (h, i)
    else
      var pushed := h[..i + 1] + [candidate];
      var kept := if |pushed| > Cap then pushed[1..] else pushed;
      (kept, |kept| - 1)
  }

  /**
   * The slice, push and shift of `updateCode` once the candidate is known to
   * differ from the entry under the cursor.
   */
  method Push(h: seq<Snapshot>, i: nat, candidate: Snapshot) returns (next: seq<Snapshot>, cursor: nat)
    requires Valid(h, i) && !Redundant(h, i, candidate)
    ensures (next, cursor) == Append(h, i, candidate)
  {
    next := h[..i + 1];
    next := next + [candidate];
    if |next| > Cap {
      next := next[1..];
    }
    cursor := |next| - 1;
  }

  /** `handleUndo`: step back unless already at the first entry. */
  function Undo(h: seq<Snapshot>, i: nat): (r: nat)
    requires Valid(h, i)
    ensures Valid(h, r)
    ensures i > 0 ==> r == i - 1
    ensures i == 0 ==> r == 0
  {
    if i > 0 then i - 1 else i
  }

  /** `handleRedo`: step forward unless already at the last entry. */
  function Redo(h: seq<Snapshot>, i: nat): (r: nat)
    requires Valid(h, i)
    ensures Valid(h, r)
    ensures i < |h| - 1 ==> r == i + 1
    ensures i == |h| - 1 ==> r == i
  {
    if i < |h| - 1 then i + 1 else i
  }

  /** Undo and redo undo each other wherever they move. */
  lemma UndoRedoInverse(h: seq<Snapshot>, i: nat)
    requires Valid(h, i)
    ensures i > 0 ==> Redo(h, Undo(h, i)) == i
    ensures i < |h| - 1 ==> Undo(h, Redo(h, i)) == i
  {
  }

  /** Committing the same version twice is the same as committing it once. */
  lemma AppendIdempotent(h: seq<Snapshot>, i: nat, c: Snapshot)
    requires Valid(h, i)
    ensures var r := Append(h, i, c); Append(r.0, r.1, c) == r
  {
  }

  /**
   * Branch pruning: once a new version is committed after an undo, redo has
   * nothing to go back to.
   */
  lemma PrunedFuture(h: seq<Snapshot>, i: nat, c: Snapshot)
    requires Valid(h, i) && i > 0
    requires !Redundant(h, Undo(h, i), c)
    ensures var r := Append(h, Undo(h, i), c); Redo(r.0, r.1) == r.1
  {
  }

  /**
   * Commits below the cap keep every entry up to the cursor, in order, and
   * push the candidate right after it.
   */
  lemma AppendBelowCap(h: seq<Snapshot>, i: nat, c: Snapshot)
    requires Valid(h, i) && i + 1 < Cap && !Redundant(h, i, c)
    ensures Append(h, i, c).0 == h[..i + 1] + [c]
  {
  }

  /**
   * Capacity eviction: committing a new version onto a full history whose
   * cursor is at the end drops the oldest entry and keeps the rest in order.
   */
  lemma AppendEvicts(h: seq<Snapshot>, c: Snapshot)
    requires |h| == Cap && !Redundant(h, Cap - 1, c)
    ensures Append(h, Cap - 1, c) == (h[1..] + [c], Cap - 1)
  {
    assert h[..Cap] == h;
    assert (h + [c])[1..] == h[1..] + [c];
  }

  /** Commit the candidates one after the other. */
  function AppendAll(h: seq<Snapshot>, i: nat, cs: seq<Snapshot>): (r: (seq<Snapshot>, nat))
    requires Valid(h, i)
    ensures Valid(r.0, r.1)
    decreases |cs|
  {
    if cs == [] then (h, i)
    else
      var next := Append(h, i, cs[0]);
      AppendAll(next.0, next.1, cs[1..])
  }

  /** Press undo `n` times. */
  function UndoTimes(h: seq<Snapshot>, i: nat, n: nat): (r: nat)
    requires Valid(h, i)
    ensures Valid(h, r)
  {
    if n == 0 then i else UndoTimes(h, Undo(h, i), n - 1)
  }

  /** Undoing `n` times from cursor `i` lands on `i - n`, or on the first entry. */
  lemma {:induction false} UndoTimesFloor(h: seq<Snapshot>, i: nat, n: nat)
    requires Valid(h, i)
    ensures UndoTimes(h, i, n) == if n <= i then i - n else 0
  {
    if n > 0 {
      UndoTimesFloor(h, Undo(h, i), n - 1);
    }
  }

  /**
   * While the cap is not reached, commits made with the cursor at the end keep
   * the first entry, keep the cursor at the end and move it by at most one
   * per commit.
   */
  lemma {:induction false} AppendAllKeepsFirst(h: seq<Snapshot>, cs: seq<Snapshot>)
    requires 0 < |h| && |h| + |cs| <= Cap
    ensures var r := AppendAll(h, |h| - 1, cs);
      r.1 == |r.0| - 1 && r.1 <= |h| - 1 + |cs| && r.0[0] == h[0]
    decreases |cs|
  {
    if cs != [] {
      var next := Append(h, |h| - 1, cs[0]);
      if !Redundant(h, |h| - 1, cs[0]) {
        AppendBelowCap(h, |h| - 1, cs[0]);
        assert h[..|h|] == h;
      }
      AppendAllKeepsFirst(next.0, cs[1..]);
    }
  }

  /**
   * From the initial history, `n` commits (at most 49, so nothing is evicted)
   * followed by `n` undos bring the cursor back to the initial empty entry.
   */
  lemma AppendsThenUndosReturnToEmpty(cs: seq<Snapshot>)
    requires |cs| < Cap
    ensures var r := AppendAll([Empty], 0, cs);
      r.0[UndoTimes(r.0, r.1, |cs|)] == Empty
  {
    AppendAllKeepsFirst([Empty], cs);
    var r := AppendAll([Empty], 0, cs);
    UndoTimesFloor(r.0, r.1, |cs|);
  }
}
