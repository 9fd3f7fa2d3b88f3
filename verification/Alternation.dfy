/** A conversation in alternating turns, as two of the providers take it: how
    contributions join, and in which turn each of them lands. */
module Alternation {
  import opened Wrappers

  /** The provider's two sides: the user's and the model's. */
  datatype Side = User | Model

  datatype Turn<P> = Turn(role: Side, parts: seq<P>)

  /** Join the last turn when it is the same side's, else start one. */
  function Append<P>(turns: seq<Turn<P>>, role: Side, parts: seq<P>): seq<Turn<P>> {
    if turns != [] && Last(turns).role == role
    then Front(turns) + [Turn(role, Last(turns).parts + parts)]
    else turns + [Turn(role, parts)]
  }

  // ---- The shape of the turns ------------------------------------------------------------------

  predicate Alternating<P>(turns: seq<Turn<P>>) {
    && (forall k :: 0 <= k < |turns| ==> turns[k].parts != [])
    && (forall k :: 0 <= k < |turns| - 1 ==> turns[k].role != turns[k + 1].role)
  }

  lemma AppendAlternates<P>(turns: seq<Turn<P>>, role: Side, parts: seq<P>)
    requires Alternating(turns) && parts != []
    ensures Alternating(Append(turns, role, parts))
  {
    var after := Append(turns, role, parts);
    if turns != [] && Last(turns).role == role {
      assert forall k :: 0 <= k < |turns| ==> after[k].role == turns[k].role;
    } else {
      assert forall k :: 0 <= k < |turns| ==> after[k] == turns[k];
    }
  }

  // ---- The parts in order -----------------------------------------------------------------------

  type Line<P> = (Side, P)

  function Tag<P>(role: Side, parts: seq<P>): (lines: seq<Line<P>>)
    ensures |lines| == |parts|
    ensures forall k :: 0 <= k < |parts| ==> lines[k] == (role, parts[k])
  {
    seq(|parts|, k requires 0 <= k < |parts| => (role, parts[k]))
  }

  /** The parts of all turns in order, each with its side. */
  function Flat<P>(turns: seq<Turn<P>>): seq<Line<P>> {
    if turns == [] then [] else Flat(Front(turns)) + Tag(Last(turns).role, Last(turns).parts)
  }

  lemma AppendFlat<P>(turns: seq<Turn<P>>, role: Side, parts: seq<P>)
    ensures Flat(Append(turns, role, parts)) == Flat(turns) + Tag(role, parts)
  {
    var after := Append(turns, role, parts);
    if turns != [] && Last(turns).role == role {
      var last := Last(turns);
      assert Front(after) == Front(turns);
      assert Tag(role, last.parts + parts) == Tag(role, last.parts) + Tag(role, parts);
    } else {
      assert Front(after) == turns;
    }
  }

  // ---- Turns only grow --------------------------------------------------------------------------

  /** Earlier turns stay, the last may be extended. */
  ghost predicate Grown<P>(a: seq<Turn<P>>, b: seq<Turn<P>>) {
    && |a| <= |b|
    && (forall t :: 0 <= t < |a| ==> b[t].role == a[t].role && a[t].parts <= b[t].parts)
  }

  lemma AppendGrows<P>(turns: seq<Turn<P>>, role: Side, parts: seq<P>)
    ensures var after := Append(turns, role, parts);
            && Grown(turns, after) && after != [] && Last(after).role == role
            && forall p <- parts :: p in Last(after).parts
  {
  }

  lemma GrownAgain<P>(a: seq<Turn<P>>, b: seq<Turn<P>>, c: seq<Turn<P>>)
    requires Grown(a, b) && Grown(b, c)
    ensures Grown(a, c)
  {
    forall t | 0 <= t < |a| ensures c[t].role == a[t].role && a[t].parts <= c[t].parts {
      assert a[t].parts <= b[t].parts && b[t].parts <= c[t].parts;
    }
  }

  // ---- Where a contribution lands ---------------------------------------------------------------

  /** The sides of the turns. */
  function Roles<P>(turns: seq<Turn<P>>): (r: seq<Side>)
    ensures |r| == |turns|
    ensures forall t :: 0 <= t < |turns| ==> r[t] == turns[t].role
  {
    seq(|turns|, t requires 0 <= t < |turns| => turns[t].role)
  }

  function JoinRole(roles: seq<Side>, role: Side): seq<Side> {
    if roles != [] && Last(roles) == role then roles else roles + [role]
  }

  lemma AppendRoles<P>(turns: seq<Turn<P>>, role: Side, parts: seq<P>)
    ensures Roles(Append(turns, role, parts)) == JoinRole(Roles(turns), role)
  {
    var after := Append(turns, role, parts);
    assert forall t :: 0 <= t < |after| ==> after[t].role == JoinRole(Roles(turns), role)[t];
  }

  /** The turns that contributions make, when each entry is the side an item
      contributes to, if it contributes at all. */
  function Joined(sides: seq<Option<Side>>): seq<Side> {
    if sides == [] then []
    else if Last(sides).None? then Joined(Front(sides)) else JoinRole(Joined(Front(sides)), Last(sides).value)
  }

  /** The turn contribution k lands in. */
  function Slot(sides: seq<Option<Side>>, k: nat): int
    requires k < |sides|
  {
    |Joined(sides[..k + 1])| - 1
  }

  lemma {:induction false} JoinedGrows(sides: seq<Option<Side>>, n: nat)
    requires n <= |sides|
    ensures Joined(sides[..n]) <= Joined(sides)
    decreases |sides| - n
  {
    if n == |sides| {
      assert sides[..n] == sides;
    } else {
      JoinedGrows(sides, n + 1);
      Extends(sides, n);
    }
  }

  lemma Lands(sides: seq<Option<Side>>, k: nat, side: Side)
    requires k < |sides| && sides[k] == Some(side)
    ensures 0 <= Slot(sides, k) < |Joined(sides)| && Joined(sides)[Slot(sides, k)] == side
  {
    JoinedGrows(sides, k + 1);
    Extends(sides, k);
  }

  /** Later contributions land no earlier, and on the other side strictly later. */
  lemma LandsLater(sides: seq<Option<Side>>, i: nat, j: nat)
    requires i < j < |sides| && sides[i].Some? && sides[j].Some?
    ensures Slot(sides, i) <= Slot(sides, j)
    ensures sides[i] != sides[j] ==> Slot(sides, i) < Slot(sides, j)
  {
    assert sides[..j + 1][..i + 1] == sides[..i + 1];
    JoinedGrows(sides[..j + 1], i + 1);
    Lands(sides, i, sides[i].value);
    Lands(sides, j, sides[j].value);
    Extends(sides, i);
    Extends(sides, j);
  }

  /** Between the two the user's side contributes and after that the model's. */
  ghost predicate Interrupted(sides: seq<Option<Side>>, i: nat, j: nat)
    requires i < j < |sides|
  {
    exists m, k :: i < m < k < j && sides[m] == Some(User) && sides[k] == Some(Model)
  }

  ghost predicate UserSpoke(sides: seq<Option<Side>>, i: nat, n: nat)
    requires n <= |sides|
  {
    exists m :: i < m < n && sides[m] == Some(User)
  }

  /** Until an interruption: one turn on when the user's side has contributed,
      none before. */
  lemma {:induction false} Between(sides: seq<Option<Side>>, i: nat, j: nat, n: nat)
    requires i < j < |sides| && i < n <= j && sides[i] == Some(Model) && !Interrupted(sides, i, j)
    ensures var roles := Joined(sides[..n]);
            && roles != []
            && if UserSpoke(sides, i, n) then Last(roles) == User && |roles| == Slot(sides, i) + 2
               else Last(roles) == Model && |roles| == Slot(sides, i) + 1
    decreases n
  {
    Extends(sides, n - 1);
    if n > i + 1 {
      Between(sides, i, j, n - 1);
      hide Joined;
      assert sides[n - 1] == Some(User) ==> UserSpoke(sides, i, n);
      assert UserSpoke(sides, i, n - 1) ==> UserSpoke(sides, i, n);
      assert UserSpoke(sides, i, n - 1) ==> sides[n - 1] != Some(Model);
    }
  }

  /** The user's contribution lands in the turn right after the model's exactly
      when no model-side contribution follows a user-side one between them. */
  lemma Adjacent(sides: seq<Option<Side>>, i: nat, j: nat)
    requires i < j < |sides| && sides[i] == Some(Model) && sides[j] == Some(User)
    ensures 0 <= Slot(sides, i) < Slot(sides, j) < |Joined(sides)|
    ensures Slot(sides, j) == Slot(sides, i) + 1 <==> !Interrupted(sides, i, j)
  {
    Lands(sides, i, Model);
    Lands(sides, j, User);
    LandsLater(sides, i, j);
    if Interrupted(sides, i, j) {
      var m, k :| i < m < k < j && sides[m] == Some(User) && sides[k] == Some(Model);
      LandsLater(sides, i, m);
      LandsLater(sides, m, k);
      LandsLater(sides, k, j);
    } else {
      Between(sides, i, j, j);
      Extends(sides, j);
    }
  }
}
