/** Splitting a storage path `scheme://bucket/key...` into its bucket and key
    (`get_bucket_and_key_strings`, present in both the handler and main/), and the
    use main/ makes of the result when it fetches an object. */
module Paths {
  import opened Wrappers
  import opened Values

  const SEP: char := '/'

  /** The number of occurrences of `c` in `s`. */
  function Count(c: char, s: string): nat
  {
    if s == [] then 0 else (if s[0] == c then 1 else 0) + Count(c, s[1..])
  }

  lemma {:induction false} CountConcat(c: char, a: string, b: string)
    ensures Count(c, a + b) == Count(c, a) + Count(c, b)
  {
    if a == [] {
      assert a + b == b;
    } else {
      assert (a + b)[1..] == a[1..] + b;
      CountConcat(c, a[1..], b);
    }
  }

  lemma {:induction false} CountAbsent(c: char, s: string)
    requires c !in s
    ensures Count(c, s) == 0
  {
    if s != [] {
      assert c !in s[1..];
      CountAbsent(c, s[1..]);
    }
  }

  /** Python's `s.split("/")`: the maximal runs between separators, empty runs
      included, so there is always one more segment than there are separators. */
  function Split(s: string): (r: seq<string>)
    ensures |r| >= 1
  {
    if s == [] then [""]
    else if s[0] == SEP then [""] + Split(s[1..])
    else
      var rest := Split(s[1..]);
      [[s[0]] + rest[0]] + rest[1..]
  }

  /** `"/" + x` for every `x` of `xs`, concatenated: the key the loop builds. */
  function Prefixed(xs: seq<string>): string
  {
    if xs == [] then "" else [SEP] + xs[0] + Prefixed(xs[1..])
  }

  /** Python's `"/".join(xs)`. */
  function Join(xs: seq<string>): string
    requires |xs| >= 1
  {
    xs[0] + Prefixed(xs[1..])
  }

  /** No segment of a split contains the separator. */
  lemma {:induction false} SplitSegmentsHaveNoSeparator(s: string)
    ensures forall i :: 0 <= i < |Split(s)| ==> SEP !in Split(s)[i]
  {
    if s != [] {
      SplitSegmentsHaveNoSeparator(s[1..]);
    }
  }

  /** Joining the segments of a split gives back the string. */
  lemma {:induction false} JoinSplit(s: string)
    ensures Join(Split(s)) == s
  {
    if s == [] {
    } else {
      var rest := Split(s[1..]);
      JoinSplit(s[1..]);
      assert Join(rest) == s[1..];
      if s[0] == SEP {
        var r := [""] + rest;
        assert Split(s) == r;
        assert r[1..] == rest;
        calc {
          Join(r);
          "" + Prefixed(rest);
          [SEP] + rest[0] + Prefixed(rest[1..]);
          [SEP] + Join(rest);
        }
      } else {
        var r := [[s[0]] + rest[0]] + rest[1..];
        assert Split(s) == r;
        assert r[1..] == rest[1..];
        calc {
          Join(r);
          [s[0]] + rest[0] + Prefixed(rest[1..]);
          [s[0]] + Join(rest);
        }
      }
      assert s == [s[0]] + s[1..];
    }
  }

  /** There is one more segment than there are separators. */
  lemma {:induction false} SplitLength(s: string)
    ensures |Split(s)| == Count(SEP, s) + 1
  {
    if s != [] {
      SplitLength(s[1..]);
    }
  }

  lemma {:induction false} PrefixedConcat(xs: seq<string>, ys: seq<string>)
    ensures Prefixed(xs + ys) == Prefixed(xs) + Prefixed(ys)
  {
    if xs == [] {
      assert xs + ys == ys;
    } else {
      assert (xs + ys)[1..] == xs[1..] + ys;
      PrefixedConcat(xs[1..], ys);
    }
  }

  lemma PrefixedSnoc(xs: seq<string>, x: string)
    ensures Prefixed(xs + [x]) == Prefixed(xs) + [SEP] + x
  {
    PrefixedConcat(xs, [x]);
    assert Prefixed([x]) == [SEP] + x + Prefixed([]);
  }

  /** `Prefixed` puts exactly one separator in front of each separator-free part. */
  lemma {:induction false} PrefixedSeparators(xs: seq<string>)
    requires forall i :: 0 <= i < |xs| ==> SEP !in xs[i]
    ensures Count(SEP, Prefixed(xs)) == |xs|
  {
    if xs != [] {
      PrefixedSeparators(xs[1..]);
      CountAbsent(SEP, xs[0]);
      CountConcat(SEP, [SEP], xs[0]);
      CountConcat(SEP, [SEP] + xs[0], Prefixed(xs[1..]));
    }
  }

  /** Where an object lives: `{"bucket_name": ..., "key_name": ...}`. */
  datatype Location = Location(bucket: string, key: string)

  /** What `get_bucket_and_key_strings` returns for `path`: segment 2 of the split is the
      bucket and every later segment contributes `"/" + segment` to the key; a path with
      fewer than three segments makes `path_elements[2]` raise `IndexError`. */
  function SplitLocation(path: string): (r: Result<Location, Exception>)
    ensures r.Failure? <==> Count(SEP, path) < 2
    ensures r.Success? ==> SEP !in r.value.bucket
    ensures r.Success? ==> r.value.key == [] || r.value.key[0] == SEP
  {
    SplitLength(path);
    SplitSegmentsHaveNoSeparator(path);
    var segs := Split(path);
    if |segs| < 3 then Failure(IndexError(LIST_INDEX_OUT_OF_RANGE))
    else Success(Location(segs[2], Prefixed(segs[3..])))
  }

  /** `get_bucket_and_key_strings`: the key is accumulated with `+=` in a loop over the
      segments after the bucket. */
  method GetBucketAndKeyStrings(path: string) returns (r: Result<Location, Exception>)
    ensures r.Failure? <==> |Split(path)| < 3
    ensures r.Failure? ==> r.error == IndexError(LIST_INDEX_OUT_OF_RANGE)
    ensures r == SplitLocation(path)
  {
    var segs := Split(path);
    if |segs| < 3 {
      return Failure(IndexError(LIST_INDEX_OUT_OF_RANGE));
    }
    var bucket := segs[2];
    var key := "";
    for i := 3 to |segs|
      invariant key == Prefixed(segs[3..i])
    {
      assert segs[3..i + 1] == segs[3..i] + [segs[i]];
      PrefixedSnoc(segs[3..i], segs[i]);
      key := key + [SEP] + segs[i];
    }
    assert segs[3..|segs|] == segs[3..];
    r := Success(Location(bucket, key));
  }

  /** The bucket is segment index 2 of the split path and holds no separator. */
  lemma BucketIsThirdSegment(path: string)
    requires SplitLocation(path).Success?
    ensures SplitLocation(path).value.bucket == Split(path)[2]
    ensures SEP !in SplitLocation(path).value.bucket
  {
    SplitSegmentsHaveNoSeparator(path);
  }

  /** The key is empty exactly when the path has three segments, and otherwise starts
      with the separator. */
  lemma KeyShape(path: string)
    requires SplitLocation(path).Success?
    ensures SplitLocation(path).value.key == "" <==> |Split(path)| == 3
    ensures SplitLocation(path).value.key != "" ==> SplitLocation(path).value.key[0] == SEP
  {
  }

  /** The key holds one separator per segment after the bucket. */
  lemma KeySeparatorCount(path: string)
    requires SplitLocation(path).Success?
    ensures Count(SEP, SplitLocation(path).value.key) == |Split(path)| - 3
  {
    var segs := Split(path);
    SplitSegmentsHaveNoSeparator(path);
    PrefixedSeparators(segs[3..]);
  }

  /** Segments 0, 1 and 2 joined with the separator, followed by the key, give back
      the path. */
  lemma Reconstruct(path: string)
    requires SplitLocation(path).Success?
    ensures Join(Split(path)[..3]) + SplitLocation(path).value.key == path
  {
    var segs := Split(path);
    JoinSplit(path);
    assert segs[1..] == segs[1..3] + segs[3..];
    PrefixedConcat(segs[1..3], segs[3..]);
    assert segs[..3][1..] == segs[1..3];
  }

  /** A separator-free string is a single segment. */
  lemma {:induction false} SplitWord(w: string)
    requires SEP !in w
    ensures Split(w) == [w]
  {
    if w != [] {
      assert SEP !in w[1..];
      SplitWord(w[1..]);
      assert [w[0]] + w[1..] == w;
    }
  }

  /** A separator-free string followed by the separator is the first segment. */
  lemma {:induction false} SplitAfterWord(w: string, rest: string)
    requires SEP !in w
    ensures Split(w + [SEP] + rest) == [w] + Split(rest)
  {
    if w == [] {
      assert w + [SEP] + rest == [SEP] + rest;
      assert ([SEP] + rest)[1..] == rest;
    } else {
      var s := w + [SEP] + rest;
      assert s[0] == w[0] && s[1..] == w[1..] + [SEP] + rest;
      assert SEP !in w[1..];
      SplitAfterWord(w[1..], rest);
      assert [w[0]] + w[1..] == w;
    }
  }

  /** A path `scheme://bucket/file` with a single-segment key: the key comes out as
      `"/" + file`, separator included. */
  lemma KeyOfSingleSegmentPath(scheme: string, bucket: string, file: string)
    requires SEP !in scheme && SEP !in bucket && SEP !in file
    ensures SplitLocation(scheme + [SEP, SEP] + bucket + [SEP] + file) == Success(Location(bucket, [SEP] + file))
  {
    var tail := bucket + [SEP] + file;
    var mid := "" + [SEP] + tail;
    var path := scheme + [SEP, SEP] + bucket + [SEP] + file;
    assert path == scheme + [SEP] + mid;
    SplitAfterWord(scheme, mid);
    SplitAfterWord("", tail);
    SplitAfterWord(bucket, file);
    SplitWord(file);
    var segs := Split(path);
    assert segs == [scheme, "", bucket, file];
    assert segs[3..] == [file];
    assert Prefixed([file]) == [SEP] + file + Prefixed([]);
    assert [SEP] + file + Prefixed([]) == [SEP] + file;
    assert SplitLocation(path) == Success(Location(bucket, [SEP] + file));
  }

  /** `get_file_from_bucket` of main/: the object store is asked for exactly the bucket
      and key parsed from `path`; a path the parser rejects never reaches the store.
      `getObject` stands for `client.get_object` followed by reading and decoding the
      body. */
  method GetFileFromBucket<T>(path: string, getObject: (string, string) -> Result<T, Exception>)
    returns (r: Result<T, Exception>)
    ensures |Split(path)| < 3 ==> r == Failure(IndexError(LIST_INDEX_OUT_OF_RANGE))
    ensures |Split(path)| >= 3 ==> r == getObject(Split(path)[2], Prefixed(Split(path)[3..]))
  {
    var location := GetBucketAndKeyStrings(path);
    if location.Failure? {
      return Failure(location.error);
    }
    r := getObject(location.value.bucket, location.value.key);
  }
}
