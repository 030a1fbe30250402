/** Listing a chart's versions as tags (resolve.go's Tags). */
module TagLists {
  import opened Wrappers
  import opened Oci
  import opened Upstreams
  import opened Tagging

  // Byte order.

  predicate Leq(a: string, b: string) {
    a == "" || (b != "" && (a[0] < b[0] || (a[0] == b[0] && Leq(a[1..], b[1..]))))
  }

  predicate Less(a: string, b: string) {
    Leq(a, b) && a != b
  }

  /** Byte order: a prefix comes first, otherwise the first difference decides. */
  lemma {:induction false} LeqExactly(a: string, b: string)
    ensures Leq(a, b) <==>
      a <= b || exists i: nat :: i < |a| && i < |b| && a[..i] == b[..i] && a[i] < b[i]
  {
    if a != "" && b != "" {
      var a', b' := a[1..], b[1..];
      LeqExactly(a', b');
      assert a == [a[0]] + a' && b == [b[0]] + b';
      if a[0] == b[0] {
        forall i: nat | i < |a'| && i < |b'| ensures a'[..i] == b'[..i] <==> a[..i + 1] == b[..i + 1] {
          assert a[..i + 1] == [a[0]] + a'[..i] && b[..i + 1] == [b[0]] + b'[..i];
          assert a[..i + 1] == b[..i + 1] ==> a[..i + 1][1..] == b[..i + 1][1..];
        }
        assert forall i: nat | i < |a'| && i < |b'| :: a'[i] == a[i + 1] && b'[i] == b[i + 1];
      } else {
        forall i: nat | 0 < i < |a| && i < |b| ensures a[..i] != b[..i] {
          assert a[..i][0] == a[0] && b[..i][0] == b[0];
        }
        assert a[..0] == b[..0];
      }
    }
  }

  lemma {:induction false} LeqTotal(a: string, b: string)
    ensures Leq(a, b) || Leq(b, a)
    ensures Leq(a, a)
  {
    if a != "" {
      if b != "" && a[0] == b[0] {
        LeqTotal(a[1..], b[1..]);
      } else {
        LeqTotal(a[1..], a[1..]);
      }
    }
  }

  lemma {:induction false} LeqAntisymmetric(a: string, b: string)
    requires Leq(a, b) && Leq(b, a)
    ensures a == b
  {
    if a != "" {
      LeqAntisymmetric(a[1..], b[1..]);
      assert a == [a[0]] + a[1..] && b == [b[0]] + b[1..];
    }
  }

  lemma {:induction false} LeqTransitive(a: string, b: string, c: string)
    requires Leq(a, b) && Leq(b, c)
    ensures Leq(a, c)
  {
    if a != "" && a[0] == b[0] && b[0] == c[0] {
      LeqTransitive(a[1..], b[1..], c[1..]);
    }
  }

  ghost predicate Sorted(tags: seq<string>) {
    forall i, j | 0 <= i < j < |tags| :: Leq(tags[i], tags[j])
  }

  // Sorting in place.

  ghost predicate SortedOf(sorted: seq<string>, tags: seq<string>) {
    Sorted(sorted) && multiset(sorted) == multiset(tags)
  }

  lemma FirstLeast(a: seq<string>, b: seq<string>)
    requires Sorted(a) && Sorted(b) && multiset(a) == multiset(b) && a != []
    ensures b != [] && Leq(a[0], b[0])
  {
    assert a[0] in multiset(b);
    assert b[0] in multiset(a);
    var j :| 0 <= j < |a| && a[j] == b[0];
    LeqTotal(a[0], a[0]);
  }

  /** Two sorted arrangements of the same tags are the same. */
  lemma {:induction false} SortedUnique(a: seq<string>, b: seq<string>)
    requires Sorted(a) && Sorted(b) && multiset(a) == multiset(b)
    ensures a == b
  {
    hide Leq, Sorted;
    if a == [] {
      assert |multiset(a)| == 0 && |multiset(b)| == |b|;
    } else {
      FirstLeast(a, b);
      FirstLeast(b, a);
      LeqAntisymmetric(a[0], b[0]);
      TailMultiset(a);
      TailMultiset(b);
      TailSorted(a);
      TailSorted(b);
      SortedUnique(a[1..], b[1..]);
    }
  }

  lemma TailSorted(a: seq<string>)
    requires Sorted(a) && a != []
    ensures Sorted(a[1..])
  {
  }

  lemma TailMultiset(a: seq<string>)
    requires a != []
    ensures a == [a[0]] + a[1..] && multiset(a[1..]) == multiset(a) - multiset{a[0]}
  {
  }

  /** The tags of the entries in index order; versions no tag can express are skipped. */
  function RawTags(entries: seq<IndexEntry>): seq<string> {
    if entries == [] then []
    else
      var tag := VersionToTag(entries[|entries| - 1].version);
      RawTags(entries[..|entries| - 1]) + if ValidTag(tag) then [tag] else []
  }

  function Insert(tags: seq<string>, t: string): (r: seq<string>)
    requires Sorted(tags)
    ensures Sorted(r) && multiset(r) == multiset(tags) + multiset{t}
  {
    if tags == [] then [t]
    else if Leq(t, tags[0]) then
      assert forall j | 0 <= j < |tags| :: Leq(t, tags[j]) by {
        forall j | 0 < j < |tags| ensures Leq(t, tags[j]) { LeqTransitive(t, tags[0], tags[j]); }
      }
      [t] + tags
    else
      var r := [tags[0]] + Insert(tags[1..], t);
      InsertHead(tags, t, Insert(tags[1..], t));
      r
  }

  lemma InsertHead(tags: seq<string>, t: string, rest: seq<string>)
    requires tags != [] && Sorted(tags) && !Leq(t, tags[0])
    requires Sorted(rest) && multiset(rest) == multiset(tags[1..]) + multiset{t}
    ensures Sorted([tags[0]] + rest) && multiset([tags[0]] + rest) == multiset(tags) + multiset{t}
  {
    assert tags == [tags[0]] + tags[1..];
    forall j | 0 <= j < |rest| ensures Leq(tags[0], rest[j]) {
      assert rest[j] in multiset(rest);
      if rest[j] == t {
        LeqTotal(t, tags[0]);
      } else {
        assert rest[j] in tags[1..];
      }
    }
  }

  function SortTags(tags: seq<string>): (r: seq<string>)
    ensures SortedOf(r, tags)
  {
    if tags == [] then []
    else
      assert tags == tags[..|tags| - 1] + [tags[|tags| - 1]];
      Insert(SortTags(tags[..|tags| - 1]), tags[|tags| - 1])
  }

  /** The listing: the sorted arrangement of the tags. */
  function TagList(entries: seq<IndexEntry>): (r: seq<string>)
    ensures SortedOf(r, RawTags(entries))
  {
    SortTags(RawTags(entries))
  }

  lemma {:induction false} RawTagsMember(entries: seq<IndexEntry>, tag: string)
    ensures tag in RawTags(entries) <==> ValidTag(tag) && exists e | e in entries :: VersionToTag(e.version) == tag
  {
    if entries != [] {
      var front, last := entries[..|entries| - 1], entries[|entries| - 1];
      RawTagsMember(front, tag);
      assert entries == front + [last];
      if e :| e in front && VersionToTag(e.version) == tag {
        assert e in entries;
      }
    }
  }

  /** A tag is listed exactly when it is valid and some listed version has it. */
  lemma ListedIff(entries: seq<IndexEntry>, tag: string)
    ensures tag in TagList(entries) <==> ValidTag(tag) && exists e | e in entries :: VersionToTag(e.version) == tag
  {
    RawTagsMember(entries, tag);
    assert tag in TagList(entries) <==> tag in multiset(TagList(entries));
    assert tag in RawTags(entries) <==> tag in multiset(RawTags(entries));
  }

  /** Asking for a listed tag finds an entry, provided every version of that tag is free of
      underscores and not signature-shaped. */
  lemma ListedTagFound(entries: seq<IndexEntry>, tag: string)
    requires tag in TagList(entries)
    requires forall e | e in entries && VersionToTag(e.version) == tag ::
        '_' !in e.version && !SignatureShaped(e.version)
    ensures Classify(tag).VersionOf? && FindVersion(entries, Classify(tag).version).Some?
    ensures VersionToTag(Classify(tag).version) == tag
  {
    ListedIff(entries, tag);
    var e :| e in entries && VersionToTag(e.version) == tag;
    ListedTagReference(e.version);
  }

  /** The append loop over the entries, then the sort. */
  method Tags(entries: Result<seq<IndexEntry>, Error>) returns (r: Result<seq<string>, Error>)
    ensures entries.Err? ==> r == Err(entries.error)
    ensures entries.Ok? ==> r == Ok(TagList(entries.value))
  {
    if entries.Err? {
      return Err(entries.error);
    }
    var tags: seq<string> := [];
    for i := 0 to |entries.value|
      invariant tags == RawTags(entries.value[..i])
    {
      assert entries.value[..i + 1][..i] == entries.value[..i];
      var tag := VersionToTag(entries.value[i].version);
      if ValidTag(tag) {
        tags := tags + [tag];
      }
    }
    assert entries.value[..|entries.value|] == entries.value;
    return Ok(SortTags(tags));
  }

  // Distinct tags.

  ghost predicate Distinct(tags: seq<string>) {
    forall i, j | 0 <= i < j < |tags| :: tags[i] != tags[j]
  }

  /** Versions that have tags have them to themselves. */
  ghost predicate DistinctTags(entries: seq<IndexEntry>) {
    forall i, j | 0 <= i < j < |entries| && ValidTag(VersionToTag(entries[i].version)) ::
      VersionToTag(entries[i].version) != VersionToTag(entries[j].version)
  }

  lemma DistinctMultiset(tags: seq<string>)
    ensures Distinct(tags) <==> forall t | t in tags :: multiset(tags)[t] == 1
    decreases tags
  {
    if tags != [] {
      DistinctMultiset(tags[1..]);
      assert tags == [tags[0]] + tags[1..];
      assert multiset(tags) == multiset{tags[0]} + multiset(tags[1..]);
      if Distinct(tags) {
        assert Distinct(tags[1..]);
        forall t | t in tags ensures multiset(tags)[t] == 1 {
          if t == tags[0] { assert t !in tags[1..]; }
        }
      }
      if forall t | t in tags :: multiset(tags)[t] == 1 {
        assert tags[0] in tags && multiset(tags)[tags[0]] == 1;
        assert tags[0] !in multiset(tags[1..]);
        forall t | t in tags[1..] ensures multiset(tags[1..])[t] == 1 { assert t in tags; }
        assert Distinct(tags[1..]);
        forall i, j | 0 <= i < j < |tags| ensures tags[i] != tags[j] {
          assert tags[j] == tags[1..][j - 1];
        }
      }
    }
  }

  lemma DistinctAppend(tags: seq<string>, t: string)
    ensures Distinct(tags + [t]) <==> Distinct(tags) && t !in tags
  {
    var all := tags + [t];
    assert all[|tags|] == t && forall i | 0 <= i < |tags| :: all[i] == tags[i];
  }

  lemma DistinctTagsAppend(front: seq<IndexEntry>, last: IndexEntry)
    ensures DistinctTags(front + [last]) <==>
      DistinctTags(front)
      && (ValidTag(VersionToTag(last.version)) ==> forall e | e in front ::
          VersionToTag(e.version) != VersionToTag(last.version))
  {
    hide ValidTag, VersionToTag;
    var all := front + [last];
    assert all[|front|] == last && forall i | 0 <= i < |front| :: all[i] == front[i];
    assert forall e | e in front :: exists i :: 0 <= i < |front| && all[i] == e;
  }

  lemma {:induction false} RawDistinct(entries: seq<IndexEntry>)
    ensures Distinct(RawTags(entries)) <==> DistinctTags(entries)
  {
    hide ValidTag, VersionToTag, Distinct, DistinctTags;
    if entries == [] {
      assert Distinct([]) by { DistinctMultiset([]); }
      NoTags();
    } else {
      var front, last := entries[..|entries| - 1], entries[|entries| - 1];
      RawDistinct(front);
      RawTagsMember(front, VersionToTag(last.version));
      DistinctAppend(RawTags(front), VersionToTag(last.version));
      DistinctTagsAppend(front, last);
      assert entries == front + [last];
      assert RawTags(front) + [] == RawTags(front);
    }
  }

  lemma NoTags()
    ensures DistinctTags([])
  {
  }

  /** The listing repeats no tag exactly when no two versions share one. */
  lemma ListDistinct(entries: seq<IndexEntry>)
    ensures Distinct(TagList(entries)) <==> DistinctTags(entries)
  {
    var raw, list := RawTags(entries), TagList(entries);
    RawDistinct(entries);
    DistinctMultiset(raw);
    DistinctMultiset(list);
    assert forall t :: (t in raw <==> t in multiset(raw)) && (t in list <==> t in multiset(list));
  }

  /** Underscore-free distinct versions never share a tag. */
  lemma UnderscoreFreeDistinct(entries: seq<IndexEntry>)
    requires DistinctVersions(entries) && forall e | e in entries :: '_' !in e.version
    ensures DistinctTags(entries)
  {
  }
}
