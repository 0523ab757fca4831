/** The milestone tracker: an editable list of savings milestones, each with
    a progress bar, and a form that appends a new one. */
module Milestones {
  import opened JsMath
  import opened Lists

  datatype Milestone = Milestone(id: string, name: string, current: real, target: real, year: real)

  /** The characters String.prototype.trim removes: the ECMAScript
      WhiteSpace and LineTerminator characters. */
  predicate IsJsWhitespace(c: char) {
    c == '\t' || c == '\n' || c == '\U{000B}' || c == '\U{000C}' || c == '\r' || c == ' '
    || c == '\U{00A0}' || c == '\U{1680}' || ('\U{2000}' <= c <= '\U{200A}')
    || c == '\U{2028}' || c == '\U{2029}' || c == '\U{202F}' || c == '\U{205F}'
    || c == '\U{3000}' || c == '\U{FEFF}'
  }

  /** Drops leading whitespace: what is left is a suffix of `s`, and every
      character dropped is whitespace. */
  function TrimStart(s: string): (r: string)
    ensures |r| <= |s| && r == s[|s| - |r|..]
    ensures forall k :: 0 <= k < |s| - |r| ==> IsJsWhitespace(s[k])
  {
    if s != [] && IsJsWhitespace(s[0]) then
      var r := TrimStart(s[1..]);
      assert forall k :: 1 <= k < |s| ==> s[k] == s[1..][k - 1];
      r
    else s
  }

  /** Drops trailing whitespace: what is left is a prefix of `s`, and every
      character dropped is whitespace. */
  function TrimEnd(s: string): (r: string)
    ensures |r| <= |s| && r == s[..|r|]
    ensures forall k :: |r| <= k < |s| ==> IsJsWhitespace(s[k])
  {
    if s != [] && IsJsWhitespace(s[|s| - 1]) then TrimEnd(s[..|s| - 1]) else s
  }

  /** `r` is the slice `s[i..j]`, and everything outside it is whitespace. */
  predicate Bracketed(s: string, r: string, i: int, j: int) {
    0 <= i <= j <= |s| && r == s[i..j]
    && (forall k :: 0 <= k < i ==> IsJsWhitespace(s[k]))
    && (forall k :: j <= k < |s| ==> IsJsWhitespace(s[k]))
  }

  /** Both ends: what is left is a slice of `s` with only whitespace before
      and after it, and it is empty or starts and ends with a character that
      is not whitespace. */
  function Trim(s: string): (r: string)
    ensures |r| <= |s|
    ensures exists i, j :: Bracketed(s, r, i, j)
    ensures r == [] || (!IsJsWhitespace(r[0]) && !IsJsWhitespace(r[|r| - 1]))
  {
    TrimEnds(s);
    BracketedByDrops(s, TrimStart(s), TrimEnd(TrimStart(s)));
    TrimEnd(TrimStart(s))
  }

  /** Trimming both ends leaves no whitespace at either end. */
  lemma TrimEnds(s: string)
    ensures TrimEnd(TrimStart(s)) == []
            || (!IsJsWhitespace(TrimEnd(TrimStart(s))[0])
                && !IsJsWhitespace(TrimEnd(TrimStart(s))[|TrimEnd(TrimStart(s))| - 1]))
  {
    TrimStartShape(s);
    TrimEndShape(TrimStart(s));
    PrefixEnds(TrimStart(s), TrimEnd(TrimStart(s)));
  }

  /** A prefix `r` of a string `t` that does not start with whitespace, when
      `r` does not end with whitespace, has no whitespace at either end. */
  lemma PrefixEnds(t: string, r: string)
    requires |r| <= |t| && r == t[..|r|]
    requires t == [] || !IsJsWhitespace(t[0])
    requires r == [] || !IsJsWhitespace(r[|r| - 1])
    ensures r == [] || (!IsJsWhitespace(r[0]) && !IsJsWhitespace(r[|r| - 1]))
  {
    if r != [] {
      assert r[0] == t[0];
    }
  }

  /** Dropping whitespace from the front of `s` down to `t`, then from the
      back of `t` down to `r`, leaves `r` bracketed in `s`. */
  lemma BracketedByDrops(s: string, t: string, r: string)
    requires |t| <= |s| && t == s[|s| - |t|..]
    requires forall k :: 0 <= k < |s| - |t| ==> IsJsWhitespace(s[k])
    requires |r| <= |t| && r == t[..|r|]
    requires forall k :: |r| <= k < |t| ==> IsJsWhitespace(t[k])
    ensures exists i, j :: Bracketed(s, r, i, j)
  {
    var i := |s| - |t|;
    forall k | i + |r| <= k < |s|
      ensures IsJsWhitespace(s[k])
    {
      assert s[k] == t[k - i];
    }
    assert Bracketed(s, r, i, i + |r|);
  }

  lemma {:induction false} TrimStartBlank(s: string)
    ensures TrimStart(s) == [] <==> forall i :: 0 <= i < |s| ==> IsJsWhitespace(s[i])
    decreases |s|
  {
    if s != [] && IsJsWhitespace(s[0]) {
      TrimStartBlank(s[1..]);
      assert forall i :: 1 <= i < |s| ==> s[i] == s[1..][i - 1];
    }
  }

  lemma {:induction false} TrimEndEmpty(s: string)
    ensures TrimEnd(s) == [] <==> forall i :: 0 <= i < |s| ==> IsJsWhitespace(s[i])
    decreases |s|
  {
    if s != [] && IsJsWhitespace(s[|s| - 1]) {
      TrimEndEmpty(s[..|s| - 1]);
    }
  }

  /** TrimStart leaves a string that is empty or starts with a non-blank. */
  lemma {:induction false} TrimStartShape(s: string)
    ensures TrimStart(s) == [] || !IsJsWhitespace(TrimStart(s)[0])
    decreases |s|
  {
    if s != [] && IsJsWhitespace(s[0]) {
      TrimStartShape(s[1..]);
    }
  }

  /** TrimEnd leaves a string that is empty or ends with a non-blank. */
  lemma {:induction false} TrimEndShape(s: string)
    ensures TrimEnd(s) == [] || !IsJsWhitespace(TrimEnd(s)[|TrimEnd(s)| - 1])
    decreases |s|
  {
    if s != [] && IsJsWhitespace(s[|s| - 1]) {
      TrimEndShape(s[..|s| - 1]);
    }
  }

  /** A name trims to nothing exactly when every character is whitespace. */
  lemma TrimmedEmpty(s: string)
    ensures Trim(s) == [] <==> forall i :: 0 <= i < |s| ==> IsJsWhitespace(s[i])
  {
    TrimStartBlank(s);
    TrimEndEmpty(TrimStart(s));
    TrimStartShape(s);
  }

  /** The guard of addMilestone: a name of only whitespace or a target of 0
      stops the add. */
  predicate CanAdd(name: string, target: real) {
    Trim(name) != [] && target != 0.0
  }

  /** One field change from updateMilestone; the numeric fields arrive
      already converted with Number(). */
  datatype Edit = SetName(name: string) | SetCurrent(current: real) | SetTarget(target: real) | SetYear(year: real)

  function Edited(m: Milestone, e: Edit): (r: Milestone)
    ensures r.id == m.id
    ensures r.name == (if e.SetName? then e.name else m.name)
    ensures r.current == (if e.SetCurrent? then e.current else m.current)
    ensures r.target == (if e.SetTarget? then e.target else m.target)
    ensures r.year == (if e.SetYear? then e.year else m.year)
  {
    match e
    case SetName(n) => m.(name := n)
    case SetCurrent(v) => m.(current := v)
    case SetTarget(v) => m.(target := v)
    case SetYear(v) => m.(year := v)
  }

  /** The map in updateMilestone: the edit applies to the milestones with
      the id, and every other milestone, the length and the order stay. */
  function ApplyEdit(ms: seq<Milestone>, id: string, e: Edit): (r: seq<Milestone>)
    ensures |r| == |ms|
    ensures forall i :: 0 <= i < |r| ==> r[i] == (if ms[i].id == id then Edited(ms[i], e) else ms[i])
  {
    seq(|ms|, i requires 0 <= i < |ms| => if ms[i].id == id then Edited(ms[i], e) else ms[i])
  }

  /** Editing a field twice keeps only the second value. */
  lemma EditTwice(ms: seq<Milestone>, id: string, e1: Edit, e2: Edit)
    requires e1.SetName? == e2.SetName? && e1.SetCurrent? == e2.SetCurrent?
    requires e1.SetTarget? == e2.SetTarget? && e1.SetYear? == e2.SetYear?
    ensures ApplyEdit(ApplyEdit(ms, id, e1), id, e2) == ApplyEdit(ms, id, e2)
  {
  }

  /** The id a milestone is matched on; removeMilestone is
      `Without(milestones, MilestoneId, id)`. */
  function MilestoneId(m: Milestone): string {
    m.id
  }

  /** The progress bar: current / target as a percentage; NaN (0 / 0) and 0
      both give 0, and the value is capped at 100. */
  function Progress(m: Milestone): (r: Number)
    ensures r != NaN && r != PosInfinity
    ensures r.Finite? ==> r.value <= 100.0
    ensures m.target > 0.0 && 0.0 <= m.current <= m.target ==> r == Finite(m.current / m.target * 100.0)
    ensures m.target > 0.0 && m.current >= m.target ==> r == Finite(100.0)
    ensures m.target == 0.0 && m.current == 0.0 ==> r == Finite(0.0)
    ensures m.target == 0.0 && m.current > 0.0 ==> r == Finite(100.0)
    ensures m.target == 0.0 && m.current < 0.0 ==> r == NegInfinity
  {
    Min100(OrZero(Scale(Divide(m.current, m.target), 100.0)))
  }

  /** The tracker's state: the milestone list it is given (replaced through
      setMilestones) and the four fields of the add form. */
  class MilestoneTracker {
    var milestones: seq<Milestone>
    var newName: string
    var newCurrent: real
    var newTarget: real
    var newYear: real

    constructor (initial: seq<Milestone>)
      ensures milestones == initial
      ensures newName == "" && newCurrent == 0.0 && newTarget == 0.0 && newYear == 1.0
    {
      milestones := initial;
      newName, newCurrent, newTarget, newYear := "", 0.0, 0.0, 1.0;
    }

    /** addMilestone, with the id (from the clock) supplied by the caller. */
    method AddMilestone(id: string)
      modifies this
      ensures !old(CanAdd(newName, newTarget)) ==> unchanged(this)
      ensures old(CanAdd(newName, newTarget)) ==>
                milestones == old(milestones) + [Milestone(id, old(newName), old(newCurrent), old(newTarget), old(newYear))]
                && newName == "" && newCurrent == 0.0 && newTarget == 0.0 && newYear == 1.0
    {
      if Trim(newName) == [] || newTarget == 0.0 {
        return;
      }
      milestones := milestones + [Milestone(id, newName, newCurrent, newTarget, newYear)];
      newName := "";
      newCurrent := 0.0;
      newTarget := 0.0;
      newYear := 1.0;
    }

    /** updateMilestone. */
    method UpdateMilestone(id: string, e: Edit)
      modifies this`milestones
      ensures milestones == ApplyEdit(old(milestones), id, e)
    {
      milestones := ApplyEdit(milestones, id, e);
    }

    /** removeMilestone. */
    method RemoveMilestone(id: string)
      modifies this`milestones
      ensures milestones == Without(old(milestones), MilestoneId, id)
    {
      milestones := Without(milestones, MilestoneId, id);
    }
  }
}
