/**
 * The alphabetical song list of the BrainzPlayer "Songs" tab
 * (SongsOverviewScreen): 26 buckets keyed 'A'..'Z', every song appended to
 * the bucket of its title's first character, the non-empty buckets drawn in
 * letter order, and a click handing the song and its whole bucket to the
 * player. The lookup is case-sensitive: a title that does not start with an
 * upper-case ASCII letter finds no bucket and the song is not shown.
 */
module SongsOverview {
  import opened Wrappers

  /** The fields of a song that the screen reads. */
  datatype Song = Song(title: string, artist: string, albumArt: Option<string>)

  /** One drawn section: its heading letter and its songs. */
  datatype Section = Section(letter: char, songs: seq<Song>)

  /** What a click hands to the play handler: the song and the play queue. */
  datatype PlayRequest = PlayRequest(song: Song, queue: seq<Song>)

  /** A bucket key: an upper-case ASCII letter. */
  predicate IsBucketKey(c: char) {
    'A' <= c <= 'Z'
  }

  /** The letter `i` places after 'A'. */
  function LetterAt(i: nat): (c: char)
    requires i < 26
    ensures IsBucketKey(c)
    ensures c as int - 'A' as int == i
  {
    ('A' as int + i) as char
  }

  /** The bucket keys, in the order the screen visits them. */
  function Letters(): (keys: seq<char>)
    ensures |keys| == 26
    ensures forall i, j :: 0 <= i < j < |keys| ==> keys[i] < keys[j]
    ensures forall c :: c in keys <==> IsBucketKey(c)
  {
    var keys := seq(26, i requires 0 <= i < 26 => LetterAt(i));
    assert forall c :: IsBucketKey(c) ==> keys[c as int - 'A' as int] == c;
    keys
  }

  /** Every title has a first character; the screen fails on an empty title. */
  predicate TitlesNonEmpty(songs: seq<Song>) {
    forall s :: s in songs ==> s.title != []
  }

  function Initial(song: Song): char
    requires song.title != []
  {
    song.title[0]
  }

  /** The songs whose title starts with `c`, in input order. */
  function Bucket(songs: seq<Song>, c: char): seq<Song>
    requires TitlesNonEmpty(songs)
  {
    if songs == [] then []
    else
      var last := songs[|songs| - 1];
      Bucket(songs[..|songs| - 1], c) + (if Initial(last) == c then [last] else [])
  }

  /** The songs that find a bucket at all, in input order. */
  function Kept(songs: seq<Song>): seq<Song>
    requires TitlesNonEmpty(songs)
  {
    if songs == [] then []
    else
      var last := songs[|songs| - 1];
      Kept(songs[..|songs| - 1]) + (if IsBucketKey(Initial(last)) then [last] else [])
  }

  /** The total size of the buckets of `keys`. */
  function BucketSizes(songs: seq<Song>, keys: seq<char>): nat
    requires TitlesNonEmpty(songs)
  {
    if keys == [] then 0 else |Bucket(songs, keys[0])| + BucketSizes(songs, keys[1..])
  }

  /** How often `c` occurs in `keys`. */
  function Occurrences(keys: seq<char>, c: char): nat {
    if keys == [] then 0 else (if keys[0] == c then 1 else 0) + Occurrences(keys[1..], c)
  }

  // ---------------------------------------------------------------------------
  // The screen's loops
  // ---------------------------------------------------------------------------

  /** One empty bucket for each of 'A'..'Z'. */
  method EmptyBuckets() returns (buckets: map<char, seq<Song>>)
    ensures |buckets| == 26
    ensures forall c :: c in buckets <==> IsBucketKey(c)
    ensures forall c :: c in buckets ==> buckets[c] == []
  {
    buckets := map[];
    for i := 0 to 26
      invariant |buckets| == i
      invariant forall c :: c in buckets <==> 'A' <= c && c as int < 'A' as int + i
      invariant forall c :: c in buckets ==> buckets[c] == []
    {
      buckets := buckets[LetterAt(i) := []];
    }
  }

  /** Append every song, in input order, to the bucket of its first character, if there is one. */
  method BuildBuckets(songs: seq<Song>) returns (buckets: map<char, seq<Song>>)
    requires TitlesNonEmpty(songs)
    ensures forall c :: c in buckets <==> IsBucketKey(c)
    ensures forall c :: c in buckets ==> buckets[c] == Bucket(songs, c)
  {
    buckets := EmptyBuckets();
    for i := 1 to |songs| + 1
      invariant forall c :: c in buckets <==> IsBucketKey(c)
      invariant forall c :: c in buckets ==> buckets[c] == Bucket(songs[..i - 1], c)
    {
      var song := songs[i - 1];
      assert songs[..i][..i - 1] == songs[..i - 1];
      if song.title[0] in buckets {
        buckets := buckets[song.title[0] := buckets[song.title[0]] + [song]];
      }
    }
    assert songs[..|songs|] == songs;
  }

  /** The sections that are drawn: one per non-empty bucket, in letter order. */
  method VisibleSections(buckets: map<char, seq<Song>>) returns (sections: seq<Section>)
    requires forall c :: IsBucketKey(c) ==> c in buckets
    ensures forall k :: 0 <= k < |sections| ==>
      IsBucketKey(sections[k].letter) && sections[k].songs == buckets[sections[k].letter] && sections[k].songs != []
    ensures forall k, l :: 0 <= k < l < |sections| ==> sections[k].letter < sections[l].letter
    ensures forall c :: IsBucketKey(c) && buckets[c] != [] ==>
      exists k :: 0 <= k < |sections| && sections[k].letter == c
  {
    sections := [];
    for i := 0 to 26
      invariant forall k :: 0 <= k < |sections| ==>
        IsBucketKey(sections[k].letter) && sections[k].letter as int < 'A' as int + i &&
        sections[k].songs == buckets[sections[k].letter] && sections[k].songs != []
      invariant forall k, l :: 0 <= k < l < |sections| ==> sections[k].letter < sections[l].letter
      invariant forall c :: IsBucketKey(c) && c as int < 'A' as int + i && buckets[c] != [] ==>
        exists k :: 0 <= k < |sections| && sections[k].letter == c
    {
      var letter := LetterAt(i);
      if |buckets[letter]| > 0 {
        ghost var before := sections;
        sections := sections + [Section(letter, buckets[letter])];
        assert forall k :: 0 <= k < |before| ==> sections[k] == before[k];
        assert sections[|sections| - 1].letter == letter;
      }
    }
  }

  /** The whole screen: bucket the songs, then draw the non-empty buckets. */
  method SongsOverviewScreen(songs: seq<Song>) returns (sections: seq<Section>)
    requires TitlesNonEmpty(songs)
    ensures forall k :: 0 <= k < |sections| ==>
      IsBucketKey(sections[k].letter) && sections[k].songs == Bucket(songs, sections[k].letter) && sections[k].songs != []
    ensures forall k, l :: 0 <= k < l < |sections| ==> sections[k].letter < sections[l].letter
    ensures forall c :: IsBucketKey(c) && Bucket(songs, c) != [] ==>
      exists k :: 0 <= k < |sections| && sections[k].letter == c
  {
    var buckets := BuildBuckets(songs);
    sections := VisibleSections(buckets);
  }

  /** A click on song `j` of a section: play that song with the section as the queue. */
  function OnSongClick(section: Section, j: nat): (r: PlayRequest)
    requires j < |section.songs|
    ensures r.song == section.songs[j]
    ensures r.song in r.queue
    ensures r.queue == section.songs
  {
    PlayRequest(section.songs[j], section.songs)
  }

  // ---------------------------------------------------------------------------
  // Properties of the buckets
  // ---------------------------------------------------------------------------

  /** Bucket `c` holds exactly the input songs whose title starts with `c`. */
  lemma {:induction false} BucketMembers(songs: seq<Song>, c: char)
    requires TitlesNonEmpty(songs)
    ensures forall x :: x in Bucket(songs, c) ==> x in songs && Initial(x) == c
    ensures forall x :: x in songs && Initial(x) == c ==> x in Bucket(songs, c)
  {
    if songs != [] {
      var init := songs[..|songs| - 1];
      BucketMembers(init, c);
      assert forall x :: x in songs ==> x in init || x == songs[|songs| - 1];
    }
  }

  /** No song is in two buckets. */
  lemma {:induction false} BucketsDisjoint(songs: seq<Song>, c: char, d: char)
    requires TitlesNonEmpty(songs)
    requires c != d
    ensures forall x :: x in Bucket(songs, c) ==> x !in Bucket(songs, d)
  {
    BucketMembers(songs, c);
    BucketMembers(songs, d);
  }

  /** Bucketing keeps relative input order: the bucket of a concatenation is the concatenation of the buckets. */
  lemma {:induction false} BucketKeepsOrder(front: seq<Song>, back: seq<Song>, c: char)
    requires TitlesNonEmpty(front) && TitlesNonEmpty(back)
    ensures TitlesNonEmpty(front + back)
    ensures Bucket(front + back, c) == Bucket(front, c) + Bucket(back, c)
  {
    if back == [] {
      assert front + back == front;
    } else {
      var all := front + back;
      assert all[..|all| - 1] == front + back[..|back| - 1];
      BucketKeepsOrder(front, back[..|back| - 1], c);
    }
  }

  /** At most every song is kept, and all are kept exactly when every title starts with 'A'..'Z'. */
  lemma {:induction false} KeptCount(songs: seq<Song>)
    requires TitlesNonEmpty(songs)
    ensures |Kept(songs)| <= |songs|
    ensures |Kept(songs)| == |songs| <==> forall x :: x in songs ==> IsBucketKey(Initial(x))
  {
    if songs != [] {
      var init := songs[..|songs| - 1];
      KeptCount(init);
      assert forall x :: x in songs ==> x in init || x == songs[|songs| - 1];
    }
  }

  lemma {:induction false} OccursOnce(keys: seq<char>, c: char)
    requires forall i, j :: 0 <= i < j < |keys| ==> keys[i] < keys[j]
    ensures Occurrences(keys, c) == if c in keys then 1 else 0
  {
    if keys != [] {
      OccursOnce(keys[1..], c);
      if keys[0] == c {
        assert forall j :: 0 <= j < |keys[1..]| ==> keys[1..][j] == keys[j + 1];
      } else {
        assert keys == [keys[0]] + keys[1..];
      }
    }
  }

  lemma {:induction false} BucketSizesOfNone(keys: seq<char>)
    ensures BucketSizes([], keys) == 0
  {
    if keys != [] {
      BucketSizesOfNone(keys[1..]);
    }
  }

  lemma {:induction false} BucketSizesAppend(init: seq<Song>, last: Song, keys: seq<char>)
    requires TitlesNonEmpty(init + [last])
    ensures BucketSizes(init + [last], keys) == BucketSizes(init, keys) + Occurrences(keys, Initial(last))
  {
    assert (init + [last])[..|init|] == init;
    if keys != [] {
      BucketSizesAppend(init, last, keys[1..]);
    }
  }

  lemma {:induction false} BucketSizesCountKept(songs: seq<Song>)
    requires TitlesNonEmpty(songs)
    ensures BucketSizes(songs, Letters()) == |Kept(songs)|
  {
    var keys := Letters();
    if songs == [] {
      BucketSizesOfNone(keys);
    } else {
      var init, last := songs[..|songs| - 1], songs[|songs| - 1];
      assert init + [last] == songs;
      BucketSizesCountKept(init);
      BucketSizesAppend(init, last, keys);
      OccursOnce(keys, Initial(last));
    }
  }

  /**
   * The 26 bucket sizes add up to the number of kept songs: each kept song is
   * in exactly one bucket. So they add up to at most `|songs|`, with equality
   * exactly when every title starts with an upper-case ASCII letter.
   */
  lemma {:induction false} BucketSizesAddUp(songs: seq<Song>)
    requires TitlesNonEmpty(songs)
    ensures BucketSizes(songs, Letters()) == |Kept(songs)| <= |songs|
    ensures BucketSizes(songs, Letters()) == |songs| <==> forall x :: x in songs ==> IsBucketKey(Initial(x))
  {
    BucketSizesCountKept(songs);
    KeptCount(songs);
  }

  /**
   * A click on song `j` of the section for `c` plays the `j`-th song of that
   * bucket, an input song starting with `c`, queued with exactly the songs
   * starting with `c` in input order.
   */
  lemma {:induction false} PlayQueueIsWholeBucket(songs: seq<Song>, c: char, j: nat)
    requires TitlesNonEmpty(songs)
    requires IsBucketKey(c) && j < |Bucket(songs, c)|
    ensures var r := OnSongClick(Section(c, Bucket(songs, c)), j);
      r.song == Bucket(songs, c)[j] && r.song in songs && Initial(r.song) == c
      && r.queue == Bucket(songs, c) && r.song in r.queue
  {
    BucketMembers(songs, c);
  }
}
