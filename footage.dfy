/**
 * Greedy footage selection of the audio-video route: the inner loop that takes
 * search hits in ranked order until their whole-second durations cover the
 * narration, and the checks around it.
 */
module Footage {
  import opened Results

  /** One file of a stock video; the route reads only its link. */
  datatype VideoFile = VideoFile(link: string)

  /** One search hit: its files and its length in whole seconds. */
  datatype Video = Video(files: seq<VideoFile>, duration: nat)

  /** Why selection fails: a taken video has no file to link to, or even the whole list is too short. */
  datatype SelectionError = NoVideoFile | InsufficientDuration

  /** Sum of the durations of `videos`. */
  function Total(videos: seq<Video>): nat
  {
    if videos == [] then 0 else videos[0].duration + Total(videos[1..])
  }

  /** Every video in `videos` has at least one file, so `files[0]` exists. */
  predicate HasFiles(videos: seq<Video>)
  {
    forall i :: 0 <= i < |videos| ==> videos[i].files != []
  }

  /** The link of the first file of each video, in order. */
  function Links(videos: seq<Video>): (links: seq<string>)
    requires HasFiles(videos)
  {
    seq(|videos|, i requires 0 <= i < |videos| => videos[i].files[0].link)
  }

  /**
   * Reference definition of how many leading videos the greedy selection takes:
   * a video is taken while seconds are still needed.
   */
  function Cut(videos: seq<Video>, need: int): (k: nat)
    ensures k <= |videos|
  {
    if need <= 0 || videos == [] then 0 else 1 + Cut(videos[1..], need - videos[0].duration)
  }

  /** What the selection yields for a narration of `target` seconds. */
  function Allocation(videos: seq<Video>, target: nat): Result<seq<string>, SelectionError>
  {
    var taken := videos[..Cut(videos, target)];
    if !HasFiles(taken) then Failure(NoVideoFile)
    else if Total(taken) < target then Failure(InsufficientDuration)
    else Success(Links(taken))
  }

  lemma {:induction false} TotalAppend(videos: seq<Video>, v: Video)
    ensures Total(videos + [v]) == Total(videos) + v.duration
  {
    if videos != [] {
      assert (videos + [v])[1..] == videos[1..] + [v];
      TotalAppend(videos[1..], v);
    }
  }

  /** Durations are non-negative, so a prefix never totals more than the whole list. */
  lemma {:induction false} PrefixTotalBounded(videos: seq<Video>, k: nat)
    requires k <= |videos|
    ensures Total(videos[..k]) <= Total(videos)
  {
    if k > 0 {
      assert videos[..k][1..] == videos[1..][..k - 1];
      PrefixTotalBounded(videos[1..], k - 1);
    }
  }

  /**
   * Cut stops at the first prefix whose total reaches the need: every shorter
   * prefix falls short, and it stops early only when its prefix suffices.
   */
  lemma {:induction false} CutIsFirstSufficientPrefix(videos: seq<Video>, need: int)
    ensures forall j :: 0 <= j < Cut(videos, need) ==> Total(videos[..j]) < need
    ensures Cut(videos, need) < |videos| ==> Total(videos[..Cut(videos, need)]) >= need
  {
    if need > 0 && videos != [] {
      var rest, d := videos[1..], videos[0].duration;
      CutIsFirstSufficientPrefix(rest, need - d);
      forall j | 0 <= j < Cut(videos, need)
        ensures Total(videos[..j]) < need
      {
        if j > 0 {
          assert videos[..j][1..] == rest[..j - 1];
        }
      }
      var k := Cut(videos, need);
      assert videos[..k][1..] == rest[..k - 1];
    }
  }

  /** Any prefix length with the two properties above is Cut itself. */
  lemma CutUnique(videos: seq<Video>, need: int, k: nat)
    requires k <= |videos|
    requires forall j :: 0 <= j < k ==> Total(videos[..j]) < need
    requires k == |videos| || Total(videos[..k]) >= need
    ensures k == Cut(videos, need)
  {
    CutIsFirstSufficientPrefix(videos, need);
  }

  /**
   * A successful selection is a prefix of the ranked list, one link per taken
   * video, whose total reaches the target; dropping its last video leaves the
   * total strictly below the target.
   */
  lemma AllocationSuccess(videos: seq<Video>, target: nat, links: seq<string>)
    requires Allocation(videos, target) == Success(links)
    ensures |links| <= |videos| && HasFiles(videos[..|links|])
    ensures links == Links(videos[..|links|])
    ensures Total(videos[..|links|]) >= target
    ensures forall j :: 0 <= j < |links| ==> Total(videos[..j]) < target
    ensures |links| > 0 ==> Total(videos[..|links| - 1]) < target
  {
    CutIsFirstSufficientPrefix(videos, target);
  }

  /** The selection fails for lack of footage exactly when every video has a file and all of them together fall short. */
  lemma AllocationInsufficient(videos: seq<Video>, target: nat)
    ensures Allocation(videos, target) == Failure(InsufficientDuration)
            <==> HasFiles(videos) && Total(videos) < target
  {
    CutIsFirstSufficientPrefix(videos, target);
    var k := Cut(videos, target);
    if k < |videos| {
      PrefixTotalBounded(videos, k);
    } else {
      assert videos[..k] == videos;
    }
  }

  /** The selection succeeds exactly when the whole list reaches the target and every taken video has a file; equality suffices. */
  lemma AllocationSucceeds(videos: seq<Video>, target: nat)
    ensures Allocation(videos, target).Success?
            <==> Total(videos) >= target && HasFiles(videos[..Cut(videos, target)])
  {
    CutIsFirstSufficientPrefix(videos, target);
    var k := Cut(videos, target);
    if k < |videos| {
      PrefixTotalBounded(videos, k);
    } else {
      assert videos[..k] == videos;
    }
  }

  /** The selection fails on a missing file exactly when some taken video has none. */
  lemma AllocationNoVideoFile(videos: seq<Video>, target: nat)
    ensures Allocation(videos, target) == Failure(NoVideoFile)
            <==> exists i :: 0 <= i < Cut(videos, target) && videos[i].files == []
  {
  }

  /**
   * The route's inner loop: walk the hits in order, stop once the running total
   * reaches the narration length, otherwise push the first file's link and add
   * the duration; afterwards reject a total that is still too short.
   */
  method SelectVideos(videos: seq<Video>, audioDuration: nat) returns (r: Result<seq<string>, SelectionError>)
    ensures r == Allocation(videos, audioDuration)
  {
    var totalVideoDuration: nat := 0;
    var selectedVideos: seq<string> := [];
    var i := 0;
    while i < |videos|
      invariant i <= |videos|
      invariant HasFiles(videos[..i])
      invariant selectedVideos == Links(videos[..i])
      invariant totalVideoDuration == Total(videos[..i])
      invariant forall j :: 0 <= j < i ==> Total(videos[..j]) < audioDuration
    {
      if totalVideoDuration >= audioDuration {
        break;
      }
      var video := videos[i];
      if video.files == [] {
        // reading video_files[0].link throws here
        CutIsFirstSufficientPrefix(videos, audioDuration);
        var k := Cut(videos, audioDuration);
        assert i < k;
        assert videos[..k][i] == video;
        return Failure(NoVideoFile);
      }
      assert videos[..i + 1] == videos[..i] + [video];
      TotalAppend(videos[..i], video);
      selectedVideos := selectedVideos + [video.files[0].link];
      totalVideoDuration := totalVideoDuration + video.duration;
      i := i + 1;
    }
    CutUnique(videos, audioDuration, i);
    if totalVideoDuration < audioDuration {
      return Failure(InsufficientDuration);
    }
    return Success(selectedVideos);
  }
}
