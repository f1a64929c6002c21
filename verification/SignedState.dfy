// The signed payload and its comparison with the enforcement columns
// (crossing/mandate.py:31-64, crossing/policy.py:93-145).
module SignedState {
  import opened Model

  function Instant(dt: DateTime): Time
  {
    dt.wall - (if dt.offset.Some? then dt.offset.value else 0)
  }

  /** Conversion to UTC keeps the moment; a naive datetime is read as UTC. */
  function AsUtc(dt: DateTime): DateTime
  {
    DateTime(Instant(dt), Some(0))
  }

  /** The same wall clock further east is an earlier moment, by the difference in offsets; naive is UTC. */
  lemma LaterOffsetIsEarlier(wall: int, offset: int, east: int)
    ensures Instant(DateTime(wall, Some(offset + east))) + east == Instant(DateTime(wall, Some(offset)))
    ensures Instant(DateTime(wall, None)) == Instant(DateTime(wall, Some(0))) == wall
  {
  }

  /** String comparison by code point, as `sorted` compares. */
  predicate Leq(a: string, b: string)
  {
    a == "" || (b != "" && (a[0] < b[0] || (a[0] == b[0] && Leq(a[1..], b[1..]))))
  }

  lemma {:induction false} LeqTotal(a: string, b: string)
    ensures Leq(a, b) || Leq(b, a)
  {
    if a != "" && b != "" && a[0] == b[0] {
      LeqTotal(a[1..], b[1..]);
    }
  }

  lemma {:induction false} LeqAntisymmetric(a: string, b: string)
    requires Leq(a, b) && Leq(b, a)
    ensures a == b
  {
    if a != "" {
      LeqAntisymmetric(a[1..], b[1..]);
      assert a == [a[0]] + a[1..] && b == [b[0]] + b[1..];
    }
  }

  lemma {:induction false} LeqTransitive(a: string, b: string, c: string)
    requires Leq(a, b) && Leq(b, c)
    ensures Leq(a, c)
  {
    if a != "" && a[0] == b[0] && b[0] == c[0] {
      LeqTransitive(a[1..], b[1..], c[1..]);
    }
  }

  function Insert(name: string, list: seq<string>): seq<string>
  {
    if list == [] || Leq(name, list[0]) then [name] + list
    else [list[0]] + Insert(name, list[1..])
  }

  function Sorted(list: seq<string>): seq<string>
  {
    if list == [] then [] else Insert(list[0], Sorted(list[1..]))
  }

  predicate Ascending(list: seq<string>)
  {
    forall i, j :: 0 <= i < j < |list| ==> Leq(list[i], list[j])
  }

  lemma {:induction false} InsertKeepsNames(name: string, list: seq<string>)
    ensures multiset(Insert(name, list)) == multiset(list) + multiset{name}
  {
    if list != [] && !Leq(name, list[0]) {
      InsertKeepsNames(name, list[1..]);
      assert list == [list[0]] + list[1..];
    }
  }

  /** Putting a name in front of an ordered list it is below. */
  lemma FrontKeepsOrder(name: string, list: seq<string>)
    requires Ascending(list) && forall i :: 0 <= i < |list| ==> Leq(name, list[i])
    ensures Ascending([name] + list)
  {
  }

  lemma {:induction false} InsertKeepsOrder(name: string, list: seq<string>)
    requires Ascending(list)
    ensures Ascending(Insert(name, list))
  {
    if list == [] {
    } else if Leq(name, list[0]) {
      forall j | 0 < j < |list|
        ensures Leq(name, list[j])
      {
        LeqTransitive(name, list[0], list[j]);
      }
      FrontKeepsOrder(name, list);
    } else {
      LeqTotal(name, list[0]);
      var rest := Insert(name, list[1..]);
      InsertKeepsOrder(name, list[1..]);
      InsertKeepsNames(name, list[1..]);
      forall j | 0 <= j < |rest|
        ensures Leq(list[0], rest[j])
      {
        assert rest[j] in multiset(rest);
        assert rest[j] == name || rest[j] in list[1..];
      }
      FrontKeepsOrder(list[0], rest);
    }
  }

  /** Sorting orders the names and keeps exactly them. */
  lemma {:induction false} SortedIsOrderedPermutation(list: seq<string>)
    ensures Ascending(Sorted(list))
    ensures multiset(Sorted(list)) == multiset(list)
  {
    if list != [] {
      SortedIsOrderedPermutation(list[1..]);
      InsertKeepsOrder(list[0], Sorted(list[1..]));
      InsertKeepsNames(list[0], Sorted(list[1..]));
      assert list == [list[0]] + list[1..];
    }
  }

  /** The first name of an ordered list comes before every name on it. */
  lemma HeadIsLeast(a: seq<string>, name: string)
    requires Ascending(a) && name in a
    ensures Leq(a[0], name)
  {
    LeqTotal(a[0], a[0]);
  }

  lemma SameNamesSameHead(a: seq<string>, b: seq<string>)
    requires Ascending(a) && Ascending(b)
    requires a != [] && b != [] && multiset(a) == multiset(b)
    ensures a[0] == b[0]
  {
    assert a[0] in multiset(b) && b[0] in multiset(a);
    HeadIsLeast(a, b[0]);
    HeadIsLeast(b, a[0]);
    LeqAntisymmetric(a[0], b[0]);
  }

  /** An ordered list is determined by its names. */
  lemma {:induction false} AscendingIsCanonical(a: seq<string>, b: seq<string>)
    requires Ascending(a) && Ascending(b)
    requires multiset(a) == multiset(b)
    ensures a == b
  {
    assert |a| == |multiset(a)| == |b|;
    if a != [] {
      SameNamesSameHead(a, b);
      assert a == [a[0]] + a[1..] && b == [b[0]] + b[1..];
      assert multiset(a[1..]) == multiset(a) - multiset{a[0]};
      assert multiset(b[1..]) == multiset(b) - multiset{b[0]};
      AscendingIsCanonical(a[1..], b[1..]);
    }
  }

  /** Two lists sort alike exactly when one is a reordering of the other. */
  lemma SortedAlikeIffReordering(a: seq<string>, b: seq<string>)
    ensures Sorted(a) == Sorted(b) <==> multiset(a) == multiset(b)
  {
    SortedIsOrderedPermutation(a);
    SortedIsOrderedPermutation(b);
    if multiset(a) == multiset(b) {
      AscendingIsCanonical(Sorted(a), Sorted(b));
    }
  }

  function SortedList(list: Option<seq<string>>): Option<seq<string>>
  {
    if list.None? then None else Some(Sorted(list.value))
  }

  function ExpiryText(expires: Option<DateTime>): Option<Time>
  {
    if expires.None? then None else Some(Instant(AsUtc(expires.value)))
  }

  /** `mandate_payload` applied to a mandate's columns. */
  function PayloadOf(m: Mandate): Payload
  {
    Payload(m.principal, m.agent, m.parent, m.limit, m.maxCall, m.maxCalls, SortedList(m.tools),
            SortedList(m.servers), ExpiryText(m.expires), m.maxSub, m.nonce)
  }

  /** `check_signed_state`: the columns rebuild the payload that was signed. */
  predicate Check(m: Mandate)
  {
    var rebuilt := PayloadOf(m);
    && m.signed.principal == rebuilt.principal
    && m.signed.agent == rebuilt.agent
    && m.signed.parent == rebuilt.parent
    && m.signed.limit == rebuilt.limit
    && m.signed.maxCall == rebuilt.maxCall
    && m.signed.maxCalls == rebuilt.maxCalls
    && SortedList(m.signed.tools) == SortedList(rebuilt.tools)
    && SortedList(m.signed.servers) == SortedList(rebuilt.servers)
    && m.signed.expires == rebuilt.expires
    && m.signed.maxSub == rebuilt.maxSub
    && m.signed.nonce == rebuilt.nonce
  }

  predicate SameNames(a: Option<seq<string>>, b: Option<seq<string>>)
  {
    a.Some? == b.Some? && (a.Some? ==> multiset(a.value) == multiset(b.value))
  }

  predicate SameMoment(a: Option<DateTime>, b: Option<DateTime>)
  {
    a.Some? == b.Some? && (a.Some? ==> Instant(a.value) == Instant(b.value))
  }

  /** Equal signed columns, up to the order of names and the time zone the expiry is written in. */
  predicate SameTerms(a: Mandate, b: Mandate)
  {
    && a.principal == b.principal && a.agent == b.agent && a.parent == b.parent
    && a.limit == b.limit && a.maxCall == b.maxCall && a.maxCalls == b.maxCalls
    && SameNames(a.tools, b.tools) && SameNames(a.servers, b.servers)
    && SameMoment(a.expires, b.expires)
    && a.maxSub == b.maxSub && a.nonce == b.nonce
  }

  lemma SortedTwice(a: Option<seq<string>>, b: Option<seq<string>>)
    ensures SortedList(SortedList(a)) == SortedList(SortedList(b)) <==> SameNames(a, b)
  {
    if a.Some? && b.Some? {
      SortedIsOrderedPermutation(a.value);
      SortedIsOrderedPermutation(b.value);
      SortedAlikeIffReordering(Sorted(a.value), Sorted(b.value));
    }
  }

  /**
   * Under the signature of a row that verifies, other columns verify exactly when they state the same
   * terms; spending and revocation, which are not signed, never matter.
   */
  lemma CheckAcceptsIffSameTerms(row: Mandate, altered: Mandate)
    requires Check(row) && altered.signed == row.signed
    ensures Check(altered) <==> SameTerms(row, altered)
  {
    SortedTwice(row.tools, altered.tools);
    SortedTwice(row.servers, altered.servers);
  }
}
