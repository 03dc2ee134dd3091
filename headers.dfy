/**
 * The ordered request header list and its upsert (`setHeader` in
 * src/utils.ts and src/utils.js). Entries are `[name, value]` pairs; the
 * upsert compares lower-cased names with JavaScript's string `<`.
 */
module Headers {
  import opened Text

  datatype Header<V> = Header(name: string, value: V)

  /** The scan of `setHeader` stops at an entry whose lower-cased name equals or exceeds the key. */
  predicate Stops(name: string, keyLower: string)
  {
    keyLower == Lower(name) || Less(keyLower, Lower(name))
  }

  /** The index at which the scan stops, or `|hs|` when it runs to the end. */
  function Position<V>(hs: seq<Header<V>>, keyLower: string): (i: nat)
    ensures i <= |hs|
    ensures forall j :: 0 <= j < i ==> !Stops(hs[j].name, keyLower)
    ensures i < |hs| ==> Stops(hs[i].name, keyLower)
  {
    if hs == [] then 0
    else if Stops(hs[0].name, keyLower) then 0
    else 1 + Position(hs[1..], keyLower)
  }

  /** The scan stops at an entry with the same lower-cased name, which is then overwritten. */
  predicate Replaces<V>(hs: seq<Header<V>>, key: string)
  {
    var i := Position(hs, Lower(key));
    i < |hs| && Lower(hs[i].name) == Lower(key)
  }

  /** The list that `setHeader(hs, key, value)` leaves behind. */
  function Upsert<V>(hs: seq<Header<V>>, key: string, value: V): (r: seq<Header<V>>)
    ensures |r| == if Replaces(hs, key) then |hs| else |hs| + 1
    ensures r[Position(hs, Lower(key))] == Header(key, value)
  {
    var i := Position(hs, Lower(key));
    if i == |hs| then hs + [Header(key, value)]
    else if Lower(hs[i].name) == Lower(key) then hs[i := Header(key, value)]
    else hs[..i] + [Header(key, value)] + hs[i..]
  }

  /** The scan position is determined by the two conditions of the loop. */
  lemma PositionIs<V>(hs: seq<Header<V>>, keyLower: string, i: nat)
    requires i <= |hs|
    requires forall j :: 0 <= j < i ==> !Stops(hs[j].name, keyLower)
    requires i < |hs| ==> Stops(hs[i].name, keyLower)
    ensures Position(hs, keyLower) == i
  {
  }

  /** Entry by entry: one slot is overwritten, or one entry is inserted and the tail moves right by one. */
  lemma UpsertShape<V>(hs: seq<Header<V>>, key: string, value: V)
    ensures var i, r := Position(hs, Lower(key)), Upsert(hs, key, value);
      && r[i] == Header(key, value)
      && (Replaces(hs, key) ==>
            |r| == |hs| && forall j :: 0 <= j < |hs| && j != i ==> r[j] == hs[j])
      && (!Replaces(hs, key) ==>
            && |r| == |hs| + 1
            && (forall j :: 0 <= j < i ==> r[j] == hs[j])
            && (forall j :: i < j < |r| ==> r[j] == hs[j - 1]))
  {
    var i, h := Position(hs, Lower(key)), Header(key, value);
    if i < |hs| && Lower(hs[i].name) != Lower(key) {
      InsertShape(hs, i, h);
    }
  }

  /** Inserting at `i` keeps the prefix and moves the tail right by one. */
  lemma InsertShape<V>(hs: seq<Header<V>>, i: nat, h: Header<V>)
    requires i <= |hs|
    ensures var r := hs[..i] + [h] + hs[i..];
      && |r| == |hs| + 1 && r[i] == h
      && (forall j :: 0 <= j < i ==> r[j] == hs[j])
      && (forall j :: i < j < |r| ==> r[j] == hs[j - 1])
  {
  }

  /**
   * `setHeader` overwrites a slot exactly when some entry has the key's
   * lower-cased name and no earlier entry has an equal or greater one.
   */
  lemma ReplacesIff<V>(hs: seq<Header<V>>, key: string)
    ensures Replaces(hs, key) <==>
      exists j :: 0 <= j < |hs| && Lower(hs[j].name) == Lower(key) &&
        forall m :: 0 <= m < j ==> !Stops(hs[m].name, Lower(key))
  {
    var kl := Lower(key);
    var i := Position(hs, kl);
    if Replaces(hs, key) {
      assert Lower(hs[i].name) == kl;
    }
    if j :| 0 <= j < |hs| && Lower(hs[j].name) == kl &&
            forall m :: 0 <= m < j ==> !Stops(hs[m].name, kl) {
      assert Stops(hs[j].name, kl);
      PositionIs(hs, kl, j);
    }
  }

  /** `setHeader` appends exactly when the scan runs to the end without stopping. */
  lemma {:induction false} UpsertAppendsIff<V>(hs: seq<Header<V>>, key: string, value: V)
    ensures Upsert(hs, key, value) == hs + [Header(key, value)] <==>
      forall j :: 0 <= j < |hs| ==> !Stops(hs[j].name, Lower(key))
  {
    var kl := Lower(key);
    var i := Position(hs, kl);
    var r := Upsert(hs, key, value);
    if i < |hs| {
      assert Stops(hs[i].name, kl);
      if !Replaces(hs, key) {
        assert Less(kl, Lower(hs[i].name));
        LessIrreflexive(kl);
        assert r[i] != hs[i];
        assert (hs + [Header(key, value)])[i] == hs[i];
      }
      assert r != hs + [Header(key, value)];
    } else {
      PositionIs(hs, kl, |hs|);
    }
  }

  /** The entries of `hs` whose lower-cased name is not in `names`, in order. */
  function Without<V>(hs: seq<Header<V>>, names: set<string>): seq<Header<V>>
  {
    if hs == [] then []
    else (if Lower(hs[0].name) in names then [] else [hs[0]]) + Without(hs[1..], names)
  }

  lemma WithoutCons<V>(h: Header<V>, hs: seq<Header<V>>, names: set<string>)
    ensures Without([h] + hs, names) == (if Lower(h.name) in names then [] else [h]) + Without(hs, names)
  {
    assert ([h] + hs)[1..] == hs;
  }

  /** Past a non-stopping first entry, the upsert acts on the tail. */
  lemma UpsertCons<V>(hs: seq<Header<V>>, key: string, value: V)
    requires hs != [] && !Stops(hs[0].name, Lower(key))
    ensures Position(hs, Lower(key)) == 1 + Position(hs[1..], Lower(key))
    ensures Replaces(hs, key) == Replaces(hs[1..], key)
    ensures Upsert(hs, key, value) == [hs[0]] + Upsert(hs[1..], key, value)
  {
    var kl, t := Lower(key), hs[1..];
    var i := Position(t, kl);
    assert Position(hs, kl) == i + 1;
    if i == |t| {
      UpsertConsAppend(hs, key, value);
    } else if Lower(t[i].name) == kl {
      UpsertConsReplace(hs, key, value);
    } else {
      UpsertConsInsert(hs, key, value);
    }
  }

  lemma UpsertConsAppend<V>(hs: seq<Header<V>>, key: string, value: V)
    requires hs != [] && Position(hs, Lower(key)) == 1 + Position(hs[1..], Lower(key))
    requires Position(hs[1..], Lower(key)) == |hs[1..]|
    ensures Upsert(hs, key, value) == [hs[0]] + Upsert(hs[1..], key, value)
  {
    var t, h := hs[1..], Header(key, value);
    assert Position(hs, Lower(key)) == |hs|;
    assert Upsert(hs, key, value) == hs + [h];
    assert Upsert(t, key, value) == t + [h];
    ConsAppend(hs, h);
  }

  lemma ConsAppend<V>(hs: seq<V>, h: V)
    requires hs != []
    ensures hs + [h] == [hs[0]] + (hs[1..] + [h])
  {
  }

  lemma UpsertConsReplace<V>(hs: seq<Header<V>>, key: string, value: V)
    requires hs != [] && Position(hs, Lower(key)) == 1 + Position(hs[1..], Lower(key))
    requires Position(hs[1..], Lower(key)) < |hs[1..]|
    requires Lower(hs[1..][Position(hs[1..], Lower(key))].name) == Lower(key)
    ensures Upsert(hs, key, value) == [hs[0]] + Upsert(hs[1..], key, value)
  {
    var t, i, h := hs[1..], Position(hs[1..], Lower(key)), Header(key, value);
    assert hs[i + 1] == t[i];
    assert Upsert(hs, key, value) == hs[i + 1 := h];
    assert Upsert(t, key, value) == t[i := h];
    ConsUpdate(hs, i, h);
  }

  lemma ConsUpdate<V>(hs: seq<V>, i: nat, h: V)
    requires i < |hs| - 1
    ensures hs[i + 1 := h] == [hs[0]] + hs[1..][i := h]
  {
    var l, r := hs[i + 1 := h], [hs[0]] + hs[1..][i := h];
    assert |l| == |r|;
    forall j | 0 <= j < |l|
      ensures l[j] == r[j]
    {
      if j > 0 {
        assert r[j] == hs[1..][i := h][j - 1];
      }
    }
  }

  lemma UpsertConsInsert<V>(hs: seq<Header<V>>, key: string, value: V)
    requires hs != [] && Position(hs, Lower(key)) == 1 + Position(hs[1..], Lower(key))
    requires Position(hs[1..], Lower(key)) < |hs[1..]|
    requires Lower(hs[1..][Position(hs[1..], Lower(key))].name) != Lower(key)
    ensures Upsert(hs, key, value) == [hs[0]] + Upsert(hs[1..], key, value)
  {
    var t, i, h := hs[1..], Position(hs[1..], Lower(key)), Header(key, value);
    assert hs[i + 1] == t[i];
    assert Upsert(hs, key, value) == hs[..i + 1] + [h] + hs[i + 1..];
    assert Upsert(t, key, value) == t[..i] + [h] + t[i..];
    ConsSlices(hs, i, h);
  }

  lemma ConsSlices<V>(hs: seq<V>, i: nat, h: V)
    requires i < |hs|
    ensures hs[..i + 1] + [h] + hs[i + 1..] == [hs[0]] + (hs[1..][..i] + [h] + hs[1..][i..])
  {
    var t := hs[1..];
    assert hs[..i + 1] == [hs[0]] + t[..i];
    assert hs[i + 1..] == t[i..];
    assert ([hs[0]] + t[..i]) + [h] + t[i..] == [hs[0]] + (t[..i] + [h] + t[i..]);
  }

  /**
   * Nothing else changes: every entry whose lower-cased name differs from the
   * key survives, in its original relative order.
   */
  lemma {:induction false} UpsertKeepsOthers<V>(hs: seq<Header<V>>, key: string, value: V, names: set<string>)
    requires Lower(key) in names
    ensures Without(Upsert(hs, key, value), names) == Without(hs, names)
  {
    var kl, h := Lower(key), Header(key, value);
    if hs == [] {
      WithoutCons(h, [], names);
    } else if Stops(hs[0].name, kl) {
      UpsertHead(hs, key, value);
      if kl == Lower(hs[0].name) {
        WithoutCons(h, hs[1..], names);
        WithoutCons(hs[0], hs[1..], names);
        assert hs == [hs[0]] + hs[1..];
      } else {
        WithoutCons(h, hs, names);
      }
    } else {
      UpsertCons(hs, key, value);
      UpsertKeepsOthers(hs[1..], key, value, names);
      WithoutCons(hs[0], Upsert(hs[1..], key, value), names);
    }
  }

  /** When the scan stops at the first entry, the upsert overwrites it or goes in front of it. */
  lemma UpsertHead<V>(hs: seq<Header<V>>, key: string, value: V)
    requires hs != [] && Stops(hs[0].name, Lower(key))
    ensures Upsert(hs, key, value) ==
      if Lower(hs[0].name) == Lower(key) then [Header(key, value)] + hs[1..] else [Header(key, value)] + hs
  {
    var h := Header(key, value);
    assert Position(hs, Lower(key)) == 0;
    if Lower(hs[0].name) == Lower(key) {
      assert hs[0 := h] == [h] + hs[1..];
    } else {
      assert hs[..0] + [h] + hs[0..] == [h] + hs;
    }
  }

  /** Every entry with another lower-cased name is still in the list after the upsert. */
  lemma UpsertKeepsEntry<V>(hs: seq<Header<V>>, key: string, value: V, e: Header<V>)
    requires e in hs && Lower(e.name) != Lower(key)
    ensures e in Upsert(hs, key, value)
  {
    UpsertShape(hs, key, value);
    var j :| 0 <= j < |hs| && hs[j] == e;
    var i := Position(hs, Lower(key));
    var r := Upsert(hs, key, value);
    if Replaces(hs, key) {
      assert j != i;
      assert r[j] == e;
    } else if j < i {
      assert r[j] == e;
    } else {
      assert r[j + 1] == e;
    }
  }

  /** Sorted by lower-cased name and free of duplicates (ascending under `Less`). */
  ghost predicate StrictlySorted<V>(hs: seq<Header<V>>)
  {
    forall i, j :: 0 <= i < j < |hs| ==> Less(Lower(hs[i].name), Lower(hs[j].name))
  }

  /**
   * On a sorted, duplicate-free list the upsert keeps the list sorted and
   * duplicate-free, and the key then occurs exactly once, at the scan position,
   * with the given spelling and value.
   */
  lemma UpsertSorted<V>(hs: seq<Header<V>>, key: string, value: V)
    requires StrictlySorted(hs)
    ensures StrictlySorted(Upsert(hs, key, value))
    ensures var i, r := Position(hs, Lower(key)), Upsert(hs, key, value);
      && r[i] == Header(key, value)
      && forall j :: 0 <= j < |r| ==> (Lower(r[j].name) == Lower(key) <==> j == i)
  {
    var kl := Lower(key);
    var i := Position(hs, kl);
    var r := Upsert(hs, key, value);
    UpsertShape(hs, key, value);
    LessIrreflexive(kl);
    // Entries before the scan position are below the key.
    forall j | 0 <= j < i
      ensures Less(Lower(hs[j].name), kl)
    {
      LessTotal(Lower(hs[j].name), kl);
    }
    if Replaces(hs, key) {
      forall j | 0 <= j < |r|
        ensures Lower(r[j].name) == Lower(hs[j].name)
      {
      }
      forall j | 0 <= j < |r| && j != i
        ensures Lower(r[j].name) != kl
      {
        if j < i {
          LessAsymmetric(Lower(hs[j].name), kl);
        } else {
          LessAsymmetric(Lower(hs[i].name), Lower(hs[j].name));
        }
      }
    } else {
      // Entries from the scan position on are above the key.
      forall j | i <= j < |hs|
        ensures Less(kl, Lower(hs[j].name))
      {
        assert Less(kl, Lower(hs[i].name));
        if j > i {
          LessTransitive(kl, Lower(hs[i].name), Lower(hs[j].name));
        }
      }
      forall a, b | 0 <= a < b < |r|
        ensures Less(Lower(r[a].name), Lower(r[b].name))
      {
        if b < i {
        } else if b == i {
        } else if a < i {
          LessTransitive(Lower(hs[a].name), kl, Lower(hs[b - 1].name));
        } else if a == i {
        } else {
        }
      }
      forall j | 0 <= j < |r| && j != i
        ensures Lower(r[j].name) != kl
      {
        if j < i {
          LessAsymmetric(Lower(hs[j].name), kl);
        } else {
          LessAsymmetric(kl, Lower(hs[j - 1].name));
        }
      }
    }
  }

  /**
   * A JavaScript array of headers that `setHeader` updates in place
   * (`headers[i] = header`, `splice`, `push`).
   */
  class HeaderList<V> {
    var entries: seq<Header<V>>

    constructor (initial: seq<Header<V>>)
      ensures entries == initial
    {
      entries := initial;
    }

    /** `headers.push(header)` */
    method Push(header: Header<V>)
      modifies this
      ensures entries == old(entries) + [header]
    {
      entries := entries + [header];
    }

    /** `setHeader` of src/utils.ts: returns as soon as it overwrites or inserts. */
    method SetHeader(key: string, value: V)
      modifies this
      ensures entries == Upsert(old(entries), key, value)
    {
      var keyLower := Lower(key);
      var header := Header(key, value);
      var i := 0;
      while i < |entries|
        invariant 0 <= i <= |entries|
        invariant entries == old(entries)
        invariant forall j :: 0 <= j < i ==> !Stops(entries[j].name, keyLower)
      {
        var nameLower := Lower(entries[i].name);
        if keyLower == nameLower {
          PositionIs(entries, keyLower, i);
          entries := entries[i := header];
          return;
        }
        if Less(keyLower, nameLower) {
          PositionIs(entries, keyLower, i);
          entries := entries[..i] + [header] + entries[i..];
          return;
        }
        i := i + 1;
      }
      PositionIs(entries, keyLower, i);
      entries := entries + [header];
    }

    /**
     * `setHeader` of src/utils.js: leaves the loop with `break` and appends
     * only when the loop index equals the (possibly grown) length afterwards.
     */
    method SetHeaderBreak(key: string, value: V)
      modifies this
      ensures entries == Upsert(old(entries), key, value)
      ensures |entries| <= |old(entries)| + 1
    {
      var keyLower := Lower(key);
      var header := Header(key, value);
      var i := 0;
      while i < |entries|
        invariant 0 <= i <= |entries|
        invariant entries == old(entries)
        invariant forall j :: 0 <= j < i ==> !Stops(entries[j].name, keyLower)
      {
        var nameLower := Lower(entries[i].name);
        if keyLower == nameLower {
          PositionIs(entries, keyLower, i);
          entries := entries[i := header];
          break;
        }
        if Less(keyLower, nameLower) {
          PositionIs(entries, keyLower, i);
          entries := entries[..i] + [header] + entries[i..];
          break;
        }
        i := i + 1;
      }
      if i == |entries| {
        PositionIs(entries, keyLower, i);
        entries := entries + [header];
      }
    }
  }

  /** Both variants of `setHeader`, run on copies of the same list, leave the same list. */
  method VariantsAgree<V>(hs: seq<Header<V>>, key: string, value: V) returns (early: seq<Header<V>>, broken: seq<Header<V>>)
    ensures early == broken
    ensures early == Upsert(hs, key, value)
  {
    var a := new HeaderList(hs);
    var b := new HeaderList(hs);
    a.SetHeader(key, value);
    b.SetHeaderBreak(key, value);
    early, broken := a.entries, b.entries;
  }

  // The four cases of test/utils.test.ts and test/utils.js.

  lemma CookieLower()
    ensures Lower("Cookie") == "cookie" && Lower("cookie") == "cookie"
  {
  }

  lemma AcceptEncodingBelowCookie()
    ensures !Stops("accept-encoding", "cookie")
  {
  }

  lemma UserAgentAboveCookie()
    ensures Stops("User-Agent", "cookie") && Lower("User-Agent") != "cookie"
  {
  }

  lemma ExampleAfterAcceptEncoding()
    ensures var r := Upsert([Header("accept-encoding", "gzip")], "Cookie", "id=1");
      |r| == 2 && r[1].name == "Cookie"
  {
    CookieLower();
    PositionAfterAcceptEncoding();
  }

  lemma PositionAfterAcceptEncoding()
    ensures Position([Header("accept-encoding", "gzip")], "cookie") == 1
  {
    AcceptEncodingBelowCookie();
    PositionPast(Header("accept-encoding", "gzip"), [], "cookie");
  }

  lemma PositionPast<V>(h: Header<V>, hs: seq<Header<V>>, keyLower: string)
    requires !Stops(h.name, keyLower)
    ensures Position([h] + hs, keyLower) == 1 + Position(hs, keyLower)
  {
    assert ([h] + hs)[1..] == hs;
  }

  lemma ExampleBetweenTwo()
    ensures var r := Upsert([Header("accept-encoding", "gzip"), Header("User-Agent", "Mozilla/5.0")], "cookie", "id=1");
      |r| == 3 && r[1].name == "cookie"
  {
    CookieLower();
    UserAgentAboveCookie();
    PositionBetweenTwo();
  }

  lemma PositionBetweenTwo()
    ensures Position([Header("accept-encoding", "gzip"), Header("User-Agent", "Mozilla/5.0")], "cookie") == 1
  {
    AcceptEncodingBelowCookie();
    UserAgentAboveCookie();
    PositionPast(Header("accept-encoding", "gzip"), [Header("User-Agent", "Mozilla/5.0")], "cookie");
  }

  lemma ExampleIntoEmpty()
    ensures var r := Upsert([], "Cookie", "id=1");
      |r| == 1 && r[0].name == "Cookie"
  {
  }

  lemma ExampleBeforeUserAgent()
    ensures var r := Upsert([Header("User-Agent", "Mozilla/5.0")], "Cookie", "id=1");
      |r| == 2 && r[0].name == "Cookie"
  {
    CookieLower();
    UserAgentAboveCookie();
    PositionIs([Header("User-Agent", "Mozilla/5.0")], "cookie", 0);
  }

  lemma ContentTypeBelowXFoo()
    ensures Stops("X-Foo", "content-type") && Lower("X-Foo") != "content-type"
  {
  }

  /**
   * On a list that is not sorted, an entry of the key's name after a greater
   * name is not reached: the header is inserted before the greater name and
   * the old entry stays.
   */
  lemma ExampleUnsortedKeepsOld()
    ensures var r := Upsert([Header("X-Foo", "1"), Header("Content-Type", "text/plain")], "Content-Type", "application/json");
      && |r| == 3
      && r[0] == Header("Content-Type", "application/json")
      && r[2] == Header("Content-Type", "text/plain")
  {
    ContentTypeBelowXFoo();
    PositionIs([Header("X-Foo", "1"), Header("Content-Type", "text/plain")], Lower("Content-Type"), 0);
  }
}
