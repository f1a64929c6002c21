// Parent links between rows, for agents and for mandates alike.
module Forest {
  import opened Model

  /** The parent column of a table. */
  type Links = seq<Option<nat>>

  /** A parent row exists before its children do. */
  predicate IsForest(links: Links)
  {
    forall i :: 0 <= i < |links| && links[i].Some? ==> links[i].value < i
  }

  /** d is a, or lies below a. */
  predicate Under(links: Links, d: nat, a: nat)
    decreases d
  {
    d == a
    || (d < |links| && links[d].Some? && links[d].value < d && Under(links, links[d].value, a))
  }

  lemma {:induction false} UnderIsLater(links: Links, d: nat, a: nat)
    requires Under(links, d, a)
    ensures a <= d
    decreases d
  {
    if d != a {
      UnderIsLater(links, links[d].value, a);
    }
  }

  lemma {:induction false} UnderTransitive(links: Links, d: nat, b: nat, a: nat)
    requires Under(links, d, b) && Under(links, b, a)
    ensures Under(links, d, a)
    decreases d
  {
    if d != b {
      UnderTransitive(links, links[d].value, b, a);
    }
  }

  /** Rows added later change nothing between the rows already there. */
  lemma {:induction false} UnderStable(links: Links, more: Links, d: nat, a: nat)
    requires d < |links|
    ensures Under(links + more, d, a) == Under(links, d, a)
    decreases d
  {
    if d != a && links[d].Some? && links[d].value < d {
      UnderStable(links, more, links[d].value, a);
    }
  }

  /** What every link keeps from child to parent, every ancestor has. */
  lemma {:induction false} UnderInherits(links: Links, p: nat -> bool, d: nat, a: nat)
    requires forall i :: 0 <= i < |links| && links[i].Some? && p(i) ==> p(links[i].value)
    requires Under(links, d, a) && p(d)
    ensures p(a)
    decreases d
  {
    if d != a {
      UnderInherits(links, p, links[d].value, a);
    }
  }

  /** Following the parent column n times, with no assumption that the links form a forest. */
  function Up(links: Links, d: nat, n: nat): Option<nat>
    decreases n
  {
    if n == 0 then Some(d)
    else if d < |links| && links[d].Some? then Up(links, links[d].value, n - 1)
    else None
  }

  /** a is reached from d by following the parent column. */
  ghost predicate Reaches(links: Links, d: nat, a: nat)
  {
    exists n: nat :: Up(links, d, n) == Some(a)
  }

  lemma {:induction false} UpOnce(links: Links, d: nat, n: nat)
    requires Up(links, d, n).Some?
    ensures Up(links, d, n + 1) == Up(links, Up(links, d, n).value, 1)
    decreases n
  {
    if n > 0 {
      UpOnce(links, links[d].value, n - 1);
    }
  }

  /** In a forest, being under a row is being able to walk up to it. */
  lemma {:induction false} ReachesIsUnder(links: Links, d: nat, a: nat)
    requires IsForest(links)
    ensures Reaches(links, d, a) <==> Under(links, d, a)
    decreases d
  {
    if d == a {
      assert Up(links, d, 0) == Some(a);
    } else if d < |links| && links[d].Some? {
      var p := links[d].value;
      ReachesIsUnder(links, p, a);
      if Reaches(links, p, a) {
        var n: nat :| Up(links, p, n) == Some(a);
        assert Up(links, d, n + 1) == Some(a);
      }
      if Reaches(links, d, a) {
        var n: nat :| Up(links, d, n) == Some(a);
        assert n > 0 && Up(links, p, n - 1) == Some(a);
      }
    } else {
      assert forall n: nat :: n > 0 ==> Up(links, d, n) == None;
    }
  }
}
