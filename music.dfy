/** The per-guild music queue: `/queue` pagination (commands/music/queue.js) and
    the dashboard buttons that change the queue (events/interactionCreate.js).
    Audio playback itself is the platform's. */
module Music {
  import opened Common

  datatype Song = Song(title: string, url: string, duration: string, requestedBy: string)

  const SongsPerPage: nat := 10
  const VolumeStep: int := 10
  const MaxVolume: int := 100
  const DefaultVolume: int := 50

  // ---------------------------------------------------------------------
  // Pagination
  // ---------------------------------------------------------------------

  /** `Math.ceil(n / 10)`. */
  function PageCount(n: nat): (c: nat)
    ensures (c - 1) * SongsPerPage < n <= c * SongsPerPage || (n == 0 && c == 0)
  {
    (n + SongsPerPage - 1) / SongsPerPage
  }

  datatype PageView =
    | NothingQueued
    | InvalidPage(pageCount: nat)
    | PageOf(page: nat, pageCount: nat, firstNumber: nat, shown: seq<Song>, nowPlaying: Option<Song>)

  /** `/queue [page]`: the page option is at least 1 when given, and defaults to 1. */
  function QueuePage(songs: seq<Song>, pageOption: Option<int>): (v: PageView)
    requires pageOption.Some? ==> pageOption.value >= 1
    ensures v == NothingQueued <==> songs == []
    ensures var page := if pageOption.Some? then pageOption.value else 1;
      && (v.InvalidPage? <==> songs != [] && page > PageCount(|songs|))
      && (v.InvalidPage? ==> v.pageCount == PageCount(|songs|))
      && (v.PageOf? ==>
            var start := (page - 1) * SongsPerPage;
            && v.page == page && v.pageCount == PageCount(|songs|)
            && start < |songs|
            && v.shown == songs[start..Min(start + SongsPerPage, |songs|)]
            && 1 <= |v.shown| <= SongsPerPage
            && v.firstNumber == start + 1
            && v.nowPlaying == (if page == 1 then Some(songs[0]) else None))
  {
    if songs == [] then NothingQueued
    else
      var page := if pageOption.Some? then pageOption.value else 1;
      var count := PageCount(|songs|);
      if page > count then InvalidPage(count)
      else
        var start := (page - 1) * SongsPerPage;
        var end := Min(start + SongsPerPage, |songs|);
        PageOf(page, count, start + 1, songs[start..end], if page == 1 then Some(songs[0]) else None)
  }

  /** Every song is on exactly the page its position says: song i is entry
      i mod 10 of page i div 10 + 1, shown with the number i + 1. */
  lemma SongOnItsPage(songs: seq<Song>, i: nat)
    requires i < |songs|
    ensures var v := QueuePage(songs, Some(i / SongsPerPage + 1));
      v.PageOf? && v.shown[i % SongsPerPage] == songs[i] &&
      v.firstNumber + i % SongsPerPage == i + 1
  {
    var page := i / SongsPerPage + 1;
    var start := (page - 1) * SongsPerPage;
    assert start == i - i % SongsPerPage;
    assert page <= PageCount(|songs|);
  }

  // ---------------------------------------------------------------------
  // The queue and its dashboard buttons
  // ---------------------------------------------------------------------

  /** Swapping two positions of a sequence. */
  function Swap<T>(s: seq<T>, i: nat, j: nat): (r: seq<T>)
    requires i < |s| && j < |s|
    ensures |r| == |s| && multiset(r) == multiset(s)
  {
    s[i := s[j]][j := s[i]]
  }

  /** The random draws are admissible for a list of length n: draw i is in 0..i. */
  predicate Draws(js: seq<int>, n: nat)
  {
    |js| == n && forall i :: 0 <= i < n ==> 0 <= js[i] <= i
  }

  /** The Fisher-Yates passes for i = k-1 down to 1, each swapping position i
      with the drawn position js[i]. */
  function Shuffled<T>(s: seq<T>, js: seq<int>, k: nat): seq<T>
    requires Draws(js, |s|) && k <= |s|
    decreases k
  {
    if k <= 1 then s else Shuffled(Swap(s, k - 1, js[k - 1]), js, k - 1)
  }

  /** The shuffle is a permutation, whatever was drawn. */
  lemma {:induction false} ShuffledPermutation<T>(s: seq<T>, js: seq<int>, k: nat)
    requires Draws(js, |s|) && k <= |s|
    ensures |Shuffled(s, js, k)| == |s|
    ensures multiset(Shuffled(s, js, k)) == multiset(s)
    decreases k
  {
    if k > 1 {
      ShuffledPermutation(Swap(s, k - 1, js[k - 1]), js, k - 1);
    }
  }

  class Queue {
    var songs: seq<Song>
    var volume: int
    var playing: bool
    var loop: bool

    ghost predicate Valid()
      reads this
    {
      0 <= volume <= MaxVolume
    }

    /** A queue as `/play` creates it. */
    constructor ()
      ensures songs == [] && volume == DefaultVolume && !playing && !loop
      ensures Valid()
    {
      songs := [];
      volume := DefaultVolume;
      playing := false;
      loop := false;
    }

    /** `music_playpause` flips playing. */
    method PlayPause()
      modifies this`playing
      ensures playing == !old(playing)
    {
      playing := !playing;
    }

    /** `music_loop` flips loop. */
    method ToggleLoop()
      modifies this`loop
      ensures loop == !old(loop)
    {
      loop := !loop;
    }

    /** `music_volume_down`: ten lower, not below 0; refused at 0. */
    method VolumeDown() returns (changed: bool)
      modifies this`volume
      ensures changed == (old(volume) > 0)
      ensures volume == if changed then Max(0, old(volume) - VolumeStep) else old(volume)
      ensures old(Valid()) ==> Valid()
    {
      if volume > 0 {
        volume := Max(0, volume - VolumeStep);
        return true;
      }
      return false;
    }

    /** `music_volume_up`: ten higher, not above 100; refused at 100. */
    method VolumeUp() returns (changed: bool)
      modifies this`volume
      ensures changed == (old(volume) < MaxVolume)
      ensures volume == if changed then Min(MaxVolume, old(volume) + VolumeStep) else old(volume)
      ensures old(Valid()) ==> Valid()
    {
      if volume < MaxVolume {
        volume := Min(MaxVolume, volume + VolumeStep);
        return true;
      }
      return false;
    }

    /** `music_shuffle`: the song at the head stays and the rest is shuffled
        behind it. */
    method Shuffle(js: seq<int>)
      requires songs != [] ==> Draws(js, |songs| - 1)
      modifies this`songs
      ensures old(songs) == [] ==> songs == []
      ensures old(songs) != [] ==>
                && songs == [old(songs)[0]] + Shuffled(old(songs)[1..], js, |old(songs)| - 1)
                && |songs| == |old(songs)| && songs[0] == old(songs)[0]
                && multiset(songs[1..]) == multiset(old(songs)[1..])
    {
      if songs == [] {
        return;
      }
      var tail := songs[1..];
      var shuffled := ShuffleCopy(tail, js);
      ShuffledPermutation(tail, js, |tail|);
      songs := [songs[0]] + shuffled;
      assert songs[1..] == shuffled;
    }
  }

  /** The shuffle of the tail: it is copied into a fresh array, which is shuffled in place. */
  method ShuffleCopy(tail: seq<Song>, js: seq<int>) returns (r: seq<Song>)
    requires Draws(js, |tail|)
    ensures r == Shuffled(tail, js, |tail|)
  {
    var a := new Song[|tail|](k requires 0 <= k < |tail| => tail[k]);
    assert a[..] == tail;
    ShuffleInPlace(a, js);
    r := a[..];
  }

  /** The shuffle loop: position i is swapped with the drawn js[i], for i from the
      end down to 1. */
  method ShuffleInPlace<T>(a: array<T>, js: seq<int>)
    requires Draws(js, a.Length)
    modifies a
    ensures a[..] == Shuffled(old(a[..]), js, a.Length)
  {
    ghost var start := a[..];
    var i := a.Length - 1;
    while i > 0
      invariant -1 <= i < a.Length
      invariant Shuffled(a[..], js, i + 1) == Shuffled(start, js, a.Length)
      decreases i
    {
      ghost var before := a[..];
      SwapIn(a, i, js[i]);
      ShuffledStep(before, js, i);
      i := i - 1;
    }
  }

  /** Swapping two cells of an array in place. */
  method SwapIn<T>(a: array<T>, i: nat, j: nat)
    requires i < a.Length && j < a.Length
    modifies a
    ensures a[..] == Swap(old(a[..]), i, j)
  {
    a[i], a[j] := a[j], a[i];
  }

  /** One pass of the shuffle, unfolded. */
  lemma ShuffledStep<T>(s: seq<T>, js: seq<int>, i: nat)
    requires Draws(js, |s|) && 1 <= i < |s|
    ensures Shuffled(s, js, i + 1) == Shuffled(Swap(s, i, js[i]), js, i)
  {
  }

  /** The dashboard's queue view: the first ten songs and how many more there are. */
  function DashboardQueue(songs: seq<Song>): (view: (seq<Song>, nat))
    ensures view.0 == Take(songs, SongsPerPage)
    ensures |view.0| + view.1 == |songs|
  {
    (Take(songs, SongsPerPage), if |songs| > SongsPerPage then |songs| - SongsPerPage else 0)
  }

  /** The client's queues by guild id. */
  class Queues {
    var queues: map<string, Queue>

    constructor ()
      ensures queues == map[]
    {
      queues := map[];
    }

    /** `music_stop`: the songs are cleared and the guild's queue is dropped. */
    method Stop(guild: string)
      modifies this`queues, if guild in queues then {queues[guild]} else {}
      ensures guild !in queues
      ensures queues == old(queues) - {guild}
      ensures guild in old(queues) ==> old(queues)[guild].songs == []
      ensures guild in old(queues) ==>
                var q := old(queues)[guild];
                q.volume == old(q.volume) && q.playing == old(q.playing) && q.loop == old(q.loop)
    {
      if guild in queues {
        queues[guild].songs := [];
      }
      queues := queues - {guild};
    }
  }
}
