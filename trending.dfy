/**
  The de-duplication of the trending list in `handleTrendingReq` of
  index.js: a video is kept when no earlier video carried its `videoId`,
  so the first occurrence of every id survives, in the order of the input.
*/
module Trending {
  import opened Js

  /** `video.videoId` of a video that is not `null` or `undefined`. */
  function VideoIdOf(video: Value): Value {
    if video.Obj? && "videoId" in video.fields then video.fields["videoId"] else Undefined
  }

  /** No earlier item carries the id of item `i`. */
  predicate IsFirstOccurrence(items: seq<Value>, i: int)
    requires 0 <= i < |items|
  {
    forall j :: 0 <= j < i ==> VideoIdOf(items[j]) != VideoIdOf(items[i])
  }

  /** The items among the first `n` that are first occurrences of their id, in input order. */
  function FirstsUpTo(items: seq<Value>, n: nat): seq<Value>
    requires n <= |items|
  {
    if n == 0 then []
    else
      var prev := FirstsUpTo(items, n - 1);
      if IsFirstOccurrence(items, n - 1) then prev + [items[n - 1]] else prev
  }

  /**
    The reference result of the de-duplication: the first occurrence of
    every id, so the kept ids are distinct and are exactly the input's ids.
  */
  function FirstOccurrences(items: seq<Value>): (r: seq<Value>)
    ensures DistinctIds(r)
    ensures forall x :: x in IdsOf(r) <==> exists j :: 0 <= j < |items| && VideoIdOf(items[j]) == x
  {
    FirstsDistinct(items, |items|);
    FirstsCoverIds(items, |items|);
    FirstsUpTo(items, |items|)
  }

  /** The ids of a list of videos, in order (the `ids` array of the source). */
  function IdsOf(videos: seq<Value>): (ids: seq<Value>)
    ensures |ids| == |videos|
    ensures forall k :: 0 <= k < |videos| ==> ids[k] == VideoIdOf(videos[k])
  {
    seq(|videos|, k requires 0 <= k < |videos| => VideoIdOf(videos[k]))
  }

  /** The ids kept among the first `n` items are exactly the ids that occur among them. */
  lemma {:induction false} FirstsCoverIds(items: seq<Value>, n: nat)
    requires n <= |items|
    ensures forall x :: x in IdsOf(FirstsUpTo(items, n)) <==>
                        exists j :: 0 <= j < n && VideoIdOf(items[j]) == x
  {
    if n > 0 {
      FirstsCoverIds(items, n - 1);
      var prev := FirstsUpTo(items, n - 1);
      var id := VideoIdOf(items[n - 1]);
      if IsFirstOccurrence(items, n - 1) {
        assert IdsOf(prev + [items[n - 1]]) == IdsOf(prev) + [id];
      } else {
        var j :| 0 <= j < n - 1 && VideoIdOf(items[j]) == id;
        assert id in IdsOf(prev);
      }
    }
  }

  /**
    The kept items are a subsequence of the input: they sit at strictly
    increasing positions, each of which is the first occurrence of its id.
  */
  lemma {:induction false} FirstsAreSubsequence(items: seq<Value>, n: nat) returns (at: seq<int>)
    requires n <= |items|
    ensures |at| == |FirstsUpTo(items, n)|
    ensures forall k :: 0 <= k < |at| ==> 0 <= at[k] < n && IsFirstOccurrence(items, at[k])
    ensures forall k :: 0 <= k < |at| ==> FirstsUpTo(items, n)[k] == items[at[k]]
    ensures forall a, b :: 0 <= a < b < |at| ==> at[a] < at[b]
  {
    if n == 0 {
      at := [];
    } else {
      var prev := FirstsUpTo(items, n - 1);
      var before := FirstsAreSubsequence(items, n - 1);
      if IsFirstOccurrence(items, n - 1) {
        at := before + [n - 1];
        assert FirstsUpTo(items, n) == prev + [items[n - 1]];
      } else {
        at := before;
      }
    }
  }

  /** No two videos of the list share an id. */
  predicate DistinctIds(videos: seq<Value>) {
    forall a, b :: 0 <= a < b < |videos| ==> VideoIdOf(videos[a]) != VideoIdOf(videos[b])
  }

  /** The kept items carry pairwise distinct ids. */
  lemma {:induction false} FirstsDistinct(items: seq<Value>, n: nat)
    requires n <= |items|
    ensures DistinctIds(FirstsUpTo(items, n))
  {
    if n > 0 {
      FirstsDistinct(items, n - 1);
      var prev := FirstsUpTo(items, n - 1);
      if IsFirstOccurrence(items, n - 1) {
        FirstsCoverIds(items, n - 1);
        var r := prev + [items[n - 1]];
        forall a, b | 0 <= a < b < |r| ensures VideoIdOf(r[a]) != VideoIdOf(r[b]) {
          assert r[a] == prev[a];
          if b < |prev| {
            assert r[b] == prev[b];
            assert VideoIdOf(prev[a]) != VideoIdOf(prev[b]);
          } else {
            assert r[b] == items[n - 1];
            assert IdsOf(prev)[a] == VideoIdOf(prev[a]);
            assert VideoIdOf(prev[a]) in IdsOf(prev);
            var j :| 0 <= j < n - 1 && VideoIdOf(items[j]) == VideoIdOf(prev[a]);
            assert VideoIdOf(items[j]) != VideoIdOf(items[n - 1]);
          }
        }
      }
    }
  }

  /** Every id of the input occurs among the kept items. */
  lemma EveryIdKept(items: seq<Value>)
    ensures var r := FirstOccurrences(items);
            forall i :: 0 <= i < |items| ==> exists k :: 0 <= k < |r| && VideoIdOf(r[k]) == VideoIdOf(items[i])
  {
    var r := FirstOccurrences(items);
    FirstsCoverIds(items, |items|);
    forall i | 0 <= i < |items|
      ensures exists k :: 0 <= k < |r| && VideoIdOf(r[k]) == VideoIdOf(items[i])
    {
      assert VideoIdOf(items[i]) in IdsOf(r);
    }
  }

  /** The loop of `handleTrendingReq` throws on the first `null` or `undefined` video. */
  function DedupOutcome(trending: seq<Value>): (r: Attempt<seq<Value>>)
    ensures r.Thrown? <==> exists i :: 0 <= i < |trending| && Nullish(trending[i])
    ensures r.Returned? ==> r.value == FirstOccurrences(trending)
  {
    if exists i :: 0 <= i < |trending| && Nullish(trending[i]) then Thrown
    else Returned(FirstOccurrences(trending))
  }

  /**
    The `forEach` loop of `handleTrendingReq`: an id not yet in `ids` is
    recorded and its video is pushed onto `data`.
  */
  method DedupByVideoId(trending: seq<Value>) returns (r: Attempt<seq<Value>>)
    ensures r == DedupOutcome(trending)
  {
    var ids: seq<Value> := [];
    var data: seq<Value> := [];
    var i := 0;
    while i < |trending|
      invariant 0 <= i <= |trending|
      invariant forall j :: 0 <= j < i ==> !Nullish(trending[j])
      invariant data == FirstsUpTo(trending, i)
      invariant ids == IdsOf(data)
    {
      var video := trending[i];
      var videoId := Prop(video, "videoId");
      if videoId.Thrown? {
        return Thrown;
      }
      FirstsCoverIds(trending, i);
      if videoId.value !in ids {
        assert IsFirstOccurrence(trending, i);
        ids := ids + [videoId.value];
        data := data + [video];
      } else {
        assert !IsFirstOccurrence(trending, i);
      }
      i := i + 1;
    }
    r := Returned(data);
  }
}
