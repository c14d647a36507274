/** The list logic of the recent-downloads hook
    (src/hooks/use-recent-downloads.ts): adding, removing and clearing
    entries. The React state, the `localStorage` copy and `Date.now()` are
    left to the caller; the time stamp is a parameter. */
module RecentDownloads {
  import opened Seqs
  import opened Common
  import MediaNormalizer

  const MaxRecentItems: nat := 6

  datatype RecentDownload = RecentDownload(
    id: string,
    url: string,
    thumbnail: string,
    title: string,
    timestamp: int,
    kind: Option<MediaNormalizer.Kind>)

  /** An entry before it is stamped: every field but the time stamp. */
  datatype NewDownload = NewDownload(
    id: string,
    url: string,
    thumbnail: string,
    title: string,
    kind: Option<MediaNormalizer.Kind>)

  /** The entry with the time stamp `now` added. */
  function Stamp(item: NewDownload, now: int): RecentDownload {
    RecentDownload(item.id, item.url, item.thumbnail, item.title, now, item.kind)
  }

  /** Keeps the entries whose id differs from `id`. */
  function OtherThan(id: string): RecentDownload -> bool {
    (e: RecentDownload) => e.id != id
  }

  function Ids(list: seq<RecentDownload>): (ids: seq<string>)
    ensures |ids| == |list|
    ensures forall i :: 0 <= i < |list| ==> ids[i] == list[i].id
  {
    seq(|list|, i requires 0 <= i < |list| => list[i].id)
  }

  /** No two entries share an id. */
  ghost predicate UniqueIds(list: seq<RecentDownload>) {
    forall i, j :: 0 <= i < j < |list| ==> list[i].id != list[j].id
  }

  /** `addRecentDownload`: the stamped item goes first, any older entry with
      its id is dropped, and the list is cut to six entries. */
  function Add(list: seq<RecentDownload>, item: NewDownload, now: int): (r: seq<RecentDownload>)
    ensures 0 < |r| <= MaxRecentItems
    ensures r[0] == Stamp(item, now)
    ensures forall i :: 1 <= i < |r| ==> r[i].id != item.id
    ensures r[1..] == Take(Filter(list, OtherThan(item.id)), MaxRecentItems - 1)
  {
    var rest := Filter(list, OtherThan(item.id));
    var r := Take([Stamp(item, now)] + rest, MaxRecentItems);
    assert r[1..] == Take(rest, MaxRecentItems - 1);
    r
  }

  /** `removeRecentDownload`. */
  function Remove(list: seq<RecentDownload>, id: string): (r: seq<RecentDownload>)
    ensures forall i :: 0 <= i < |r| ==> r[i].id != id
  {
    Filter(list, OtherThan(id))
  }

  /** `clearRecentDownloads`. */
  function Clear(): (r: seq<RecentDownload>)
    ensures |r| == 0
  {
    []
  }

  /** Adding keeps ids unique. */
  lemma AddKeepsIdsUnique(list: seq<RecentDownload>, item: NewDownload, now: int)
    requires UniqueIds(list)
    ensures UniqueIds(Add(list, item, now))
  {
    var rest := Filter(list, OtherThan(item.id));
    FilterIsSubsequence(list, OtherThan(item.id));
    SubsequenceUniqueIds(rest, list);
    var r := Add(list, item, now);
    forall i, j | 0 <= i < j < |r|
      ensures r[i].id != r[j].id
    {
      if i > 0 {
        assert r[i] == r[1..][i - 1] == rest[i - 1];
        assert r[j] == r[1..][j - 1] == rest[j - 1];
      }
    }
  }

  /** A subsequence of a list with unique ids has unique ids. */
  lemma {:induction false} SubsequenceUniqueIds(a: seq<RecentDownload>, b: seq<RecentDownload>)
    requires IsSubsequence(a, b) && UniqueIds(b)
    ensures UniqueIds(a)
    decreases |b|
  {
    if a != [] && b != [] {
      assert UniqueIds(b[1..]) by {
        forall i, j | 0 <= i < j < |b[1..]| ensures b[1..][i].id != b[1..][j].id {
          assert b[1..][i] == b[i + 1] && b[1..][j] == b[j + 1];
        }
      }
      if a[0] == b[0] {
        SubsequenceUniqueIds(a[1..], b[1..]);
        SubsequenceElements(a[1..], b[1..]);
        forall i, j | 0 <= i < j < |a| ensures a[i].id != a[j].id {
          if i == 0 {
            assert a[j] == a[1..][j - 1];
            assert a[j] in b[1..];
            var k :| 0 <= k < |b[1..]| && b[1..][k] == a[j];
            assert b[k + 1] == a[j];
          } else {
            assert a[i] == a[1..][i - 1] && a[j] == a[1..][j - 1];
          }
        }
      } else {
        SubsequenceUniqueIds(a, b[1..]);
      }
    }
  }

  /** Every element of a subsequence is an element of the whole. */
  lemma {:induction false} SubsequenceElements<T>(a: seq<T>, b: seq<T>)
    requires IsSubsequence(a, b)
    ensures forall x :: x in a ==> x in b
    decreases |b|
  {
    if a != [] && b != [] {
      if a[0] == b[0] {
        SubsequenceElements(a[1..], b[1..]);
        assert a == [a[0]] + a[1..];
        assert b == [b[0]] + b[1..];
      } else {
        SubsequenceElements(a, b[1..]);
        assert b == [b[0]] + b[1..];
      }
    }
  }

  /** Adding the same id a second time leaves the same ids in the same
      order; only the head entry is replaced. */
  lemma AddTwiceSameIds(list: seq<RecentDownload>, first: NewDownload, second: NewDownload, t1: int, t2: int)
    requires first.id == second.id
    ensures var once := Add(list, first, t1);
            var twice := Add(once, second, t2);
            Ids(twice) == Ids(once) && twice[1..] == once[1..] && twice[0] == Stamp(second, t2)
  {
    var keep := OtherThan(first.id);
    var rest := Take(Filter(list, keep), MaxRecentItems - 1);
    var once := Add(list, first, t1);
    assert once == [Stamp(first, t1)] + rest;
    assert forall i :: 0 <= i < |rest| ==> keep(rest[i]);
    assert Filter(once, keep) == Filter(rest, keep) by {
      assert once[1..] == rest;
    }
    FilterIdentity(rest, keep);
    var twice := Add(once, second, t2);
    assert twice[1..] == Take(rest, MaxRecentItems - 1) == rest;
  }

  /** Removing drops exactly the entries with the id and keeps the others in
      order; an id that is not present leaves the list unchanged. */
  lemma RemoveExact(list: seq<RecentDownload>, id: string)
    ensures IsSubsequence(Remove(list, id), list)
    ensures forall e :: e in Remove(list, id) <==> e in list && e.id != id
    ensures forall e :: multiset(Remove(list, id))[e] == if e.id != id then multiset(list)[e] else 0
    ensures (forall i :: 0 <= i < |list| ==> list[i].id != id) <==> Remove(list, id) == list
  {
    FilterIsSubsequence(list, OtherThan(id));
    forall e
      ensures e in Remove(list, id) <==> e in list && e.id != id
    {
      FilterMembership(list, OtherThan(id), e);
    }
    forall e
      ensures multiset(Remove(list, id))[e] == if e.id != id then multiset(list)[e] else 0
    {
      FilterMultiplicity(list, OtherThan(id), e);
    }
    FilterIdentity(list, OtherThan(id));
  }

  /** After a clear, adding yields just the new entry. */
  lemma AddAfterClear(item: NewDownload, now: int)
    ensures Add(Clear(), item, now) == [Stamp(item, now)]
  {
  }
}
