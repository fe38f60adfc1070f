/**
 * Artifact naming in the blob container.  Every artifact of a user and
 * customer is stored as `<prefix><file type><n>.<extension>`; the next free
 * index `n` is found by listing the names that start with the prefix and
 * reading back the number at the end of each one.
 */
module BlobNaming {
  import opened Wrappers
  import opened PyStr

  /** `container_client.list_blobs(name_starts_with=prefix)`: the names starting with `prefix`, in listing order. */
  function ListBlobs(container: seq<string>, prefix: string): (listed: seq<string>)
    ensures forall x :: x in listed <==> x in container && prefix <= x
    ensures |listed| <= |container|
  {
    if container == [] then []
    else (if prefix <= container[0] then [container[0]] else []) + ListBlobs(container[1..], prefix)
  }

  /** The last segment with the file type and every known extension removed, in the application's order. */
  function NumberPart(last: string, fileType: string): string
  {
    RemoveAll(RemoveAll(RemoveAll(RemoveAll(last, fileType), ".mp4"), ".webm"), ".txt")
  }

  /**
   * The index a listed name contributes: present when the name has at least
   * `minParts` `_`-segments, its last segment starts with `fileType`, and
   * what remains of that segment parses as an integer.
   */
  function SuffixNumber(name: string, fileType: string, minParts: nat): Option<int>
  {
    var last := LastSegment(name, '_');
    if |Split(name, '_')| >= minParts && fileType <= last then ParseInt(NumberPart(last, fileType))
    else None
  }

  /** One step of the counting loop: `count` rises to `number + 1` when `number >= count`. */
  function Bump(count: int, number: Option<int>): int
  {
    if number.Some? && number.value >= count then number.value + 1 else count
  }

  /** The suffix rule as a function of the name alone. */
  function SuffixRule(fileType: string, minParts: nat): string -> Option<int>
  {
    x => SuffixNumber(x, fileType, minParts)
  }

  lemma SuffixRuleApply(x: string, fileType: string, minParts: nat)
    ensures SuffixRule(fileType, minParts)(x) == SuffixNumber(x, fileType, minParts)
  {
  }

  /** What the counting loop holds after visiting `names` in order, starting from 1. */
  function CountBy(names: seq<string>, number: string -> Option<int>): int
  {
    if names == [] then 1
    else Bump(CountBy(names[..|names| - 1], number), number(names[|names| - 1]))
  }

  /** `check_existing_files`' count over the listed names. */
  function CountFrom(names: seq<string>, fileType: string, minParts: nat): int
  {
    CountBy(names, SuffixRule(fileType, minParts))
  }

  /**
   * The intended meaning of the count: `max(1, 1 + largest parsed number)`,
   * i.e. at least 1, above every parsed number, and either 1 or one more
   * than some parsed number.
   */
  predicate IsNextIndex(r: int, names: seq<string>, number: string -> Option<int>)
  {
    && r >= 1
    && (forall x :: x in names && number(x).Some? ==> number(x).value < r)
    && (r == 1 || exists x :: x in names && number(x) == Some(r - 1))
  }

  /** The counting loop computes `max(1, 1 + largest parsed number)`. */
  lemma {:induction false} CountByIsNextIndex(names: seq<string>, number: string -> Option<int>)
    ensures IsNextIndex(CountBy(names, number), names, number)
  {
    if names != [] {
      var init := names[..|names| - 1];
      var last := names[|names| - 1];
      CountByIsNextIndex(init, number);
      assert names == init + [last];
      var c := CountBy(init, number);
      var n := number(last);
      if n.Some? && n.value >= c {
        assert last in names && number(last) == Some(CountBy(names, number) - 1);
      } else if c != 1 {
        var w :| w in init && number(w) == Some(c - 1);
        assert w in names;
      }
    }
  }

  /** A value above every parsed number is at least the next index. */
  lemma NextIndexLeast(r: int, bound: int, names: seq<string>, number: string -> Option<int>)
    requires IsNextIndex(r, names, number)
    requires bound >= 1
    requires forall x :: x in names && number(x).Some? ==> number(x).value < bound
    ensures r <= bound
  {
    if r != 1 {
      var w :| w in names && number(w) == Some(r - 1);
      assert r - 1 < bound;
    }
  }

  /** `max(1, 1 + largest parsed number)` is a single number. */
  lemma NextIndexUnique(r1: int, r2: int, names: seq<string>, number: string -> Option<int>)
    requires IsNextIndex(r1, names, number) && IsNextIndex(r2, names, number)
    ensures r1 == r2
  {
    NextIndexLeast(r1, r2, names, number);
    NextIndexLeast(r2, r1, names, number);
  }

  /** The count does not depend on the order in which the names are listed. */
  lemma CountByOrderIndependent(a: seq<string>, b: seq<string>, number: string -> Option<int>)
    requires multiset(a) == multiset(b)
    ensures CountBy(a, number) == CountBy(b, number)
  {
    CountByIsNextIndex(a, number);
    CountByIsNextIndex(b, number);
    forall x ensures x in a <==> x in b {
      assert x in a <==> x in multiset(a);
      assert x in b <==> x in multiset(b);
    }
    NextIndexUnique(CountBy(a, number), CountBy(b, number), a, number);
  }

  /** With no parsable number among the names the count stays at 1. */
  lemma {:induction false} CountByDefault(names: seq<string>, number: string -> Option<int>)
    requires forall k :: 0 <= k < |names| ==> number(names[k]).None?
    ensures CountBy(names, number) == 1
  {
    if names != [] {
      var init := names[..|names| - 1];
      assert forall k :: 0 <= k < |init| ==> init[k] == names[k];
      CountByDefault(init, number);
    }
  }

  /** A name without a parsable number does not change the count, wherever it is listed. */
  lemma CountBySkip(a: seq<string>, x: string, b: seq<string>, number: string -> Option<int>)
    requires number(x).None?
    ensures CountBy(a + [x] + b, number) == CountBy(a + b, number)
  {
    var ab := a + b;
    var axb := a + [x] + b;
    CountByIsNextIndex(ab, number);
    CountByIsNextIndex(axb, number);
    forall y ensures (y in axb && number(y).Some?) <==> (y in ab && number(y).Some?) {
      assert y in axb <==> y in a || y == x || y in b;
    }
    var r1 := CountBy(ab, number);
    var r2 := CountBy(axb, number);
    NextIndexLeast(r1, r2, ab, number);
    NextIndexLeast(r2, r1, axb, number);
  }

  /**
   * A name with too few segments, with a last segment not starting with the
   * file type, or whose stripped remainder is not an integer is skipped.
   */
  lemma SkippedNameKeepsCount(a: seq<string>, x: string, b: seq<string>, fileType: string, minParts: nat)
    requires || |Split(x, '_')| < minParts
             || !(fileType <= LastSegment(x, '_'))
             || ParseInt(NumberPart(LastSegment(x, '_'), fileType)).None?
    ensures CountFrom(a + [x] + b, fileType, minParts) == CountFrom(a + b, fileType, minParts)
  {
    assert SuffixNumber(x, fileType, minParts).None?;
    SuffixRuleApply(x, fileType, minParts);
    CountBySkip(a, x, b, SuffixRule(fileType, minParts));
  }

  /** One more listed name bumps the count by its suffix number. */
  lemma CountFromStep(listed: seq<string>, i: nat, fileType: string, minParts: nat)
    requires i < |listed|
    ensures CountFrom(listed[..i + 1], fileType, minParts)
            == Bump(CountFrom(listed[..i], fileType, minParts), SuffixNumber(listed[i], fileType, minParts))
  {
    assert listed[..i + 1][..i] == listed[..i];
    SuffixRuleApply(listed[i], fileType, minParts);
  }

  /** `CountFromStep` with the count so far and the new name's number given. */
  lemma CountFromStepBy(listed: seq<string>, i: nat, fileType: string, minParts: nat, before: int, number: Option<int>)
    requires i < |listed|
    requires before == CountFrom(listed[..i], fileType, minParts)
    requires number == SuffixNumber(listed[i], fileType, minParts)
    ensures CountFrom(listed[..i + 1], fileType, minParts) == Bump(before, number)
  {
    CountFromStep(listed, i, fileType, minParts);
  }

  /** The counting loop (`count = 1; for blob in listed: ...`), proved to compute `CountFrom`. */
  method CountExisting(listed: seq<string>, fileType: string, minParts: nat) returns (count: int)
    ensures count == CountFrom(listed, fileType, minParts)
  {
    count := 1;
    var i := 0;
    while i < |listed|
      invariant 0 <= i <= |listed|
      invariant count == CountFrom(listed[..i], fileType, minParts)
    {
      var number := SuffixNumber(listed[i], fileType, minParts);
      CountFromStepBy(listed, i, fileType, minParts, count, number);
      if number.Some? && number.value >= count {
        count := number.value + 1;
      }
      i := i + 1;
    }
    assert listed[..i] == listed;
  }

  /** What the counting loop computes is `max(1, 1 + largest parsed number)`. */
  lemma CountFromIsNextIndex(listed: seq<string>, fileType: string, minParts: nat)
    ensures IsNextIndex(CountFrom(listed, fileType, minParts), listed, SuffixRule(fileType, minParts))
  {
    CountByIsNextIndex(listed, SuffixRule(fileType, minParts));
  }

  // ---------------------------------------------------------------------
  // Names the application builds
  // ---------------------------------------------------------------------

  /** `f"{head}_{file_type}{k}.{extension}"`. */
  function ArtifactName(head: string, fileType: string, k: int, extension: string): string
  {
    head + "_" + fileType + IntToString(k) + "." + extension
  }

  /** The two (file type, extension) pairs the application writes. */
  predicate KnownKind(fileType: string, extension: string)
  {
    (fileType == "recordings" && extension == "mp4") || (fileType == "feedback" && extension == "txt")
  }

  lemma NumeralHasNoUnderscore(d: string)
    requires forall k :: 0 <= k < |d| ==> NumeralChar(d[k])
    ensures '_' !in d
  {
    assert forall k :: 0 <= k < |d| ==> d[k] != '_';
  }

  /** Stripping `recordings` and the extensions from `recordings{k}.mp4` leaves `str(k)`. */
  lemma NumberPartRecordings(d: string)
    requires forall k :: 0 <= k < |d| ==> NumeralChar(d[k])
    ensures NumberPart("recordings" + d + ".mp4", "recordings") == d
  {
    assert "recordings" + d + ".mp4" == "recordings" + (d + ".mp4");
    RemoveAllLeading("recordings", d + ".mp4");
    RemoveAllSkipsNumeral(d, ".mp4", "recordings");
    RemoveAllAbsent(".mp4", "recordings");
    RemoveAllSkipsNumeral(d, ".mp4", ".mp4");
    RemoveAllLeading(".mp4", "");
    assert ".mp4" + "" == ".mp4";
    assert d + "" == d;
    RemoveAllSkipsNumeral(d, "", ".webm");
    RemoveAllSkipsNumeral(d, "", ".txt");
  }

  /** Stripping `feedback` and the extensions from `feedback{k}.txt` leaves `str(k)`. */
  lemma NumberPartFeedback(d: string)
    requires forall k :: 0 <= k < |d| ==> NumeralChar(d[k])
    ensures NumberPart("feedback" + d + ".txt", "feedback") == d
  {
    assert "feedback" + d + ".txt" == "feedback" + (d + ".txt");
    RemoveAllLeading("feedback", d + ".txt");
    RemoveAllSkipsNumeral(d, ".txt", "feedback");
    RemoveAllAbsent(".txt", "feedback");
    RemoveAllSkipsNumeral(d, ".txt", ".mp4");
    RemoveAllAbsent(".txt", ".mp4");
    RemoveAllSkipsNumeral(d, ".txt", ".webm");
    RemoveAllAbsent(".txt", ".webm");
    RemoveAllSkipsNumeral(d, ".txt", ".txt");
    RemoveAllLeading(".txt", "");
    assert ".txt" + "" == ".txt";
    assert d + "" == d;
  }

  lemma TailShape(fileType: string, d: string, extension: string)
    requires '_' !in fileType && '_' !in d && '_' !in extension
    ensures '_' !in fileType + d + "." + extension
    ensures fileType <= fileType + d + "." + extension
  {
    assert (fileType + d + "." + extension)[..|fileType|] == fileType;
  }

  lemma TailNumberPart(fileType: string, d: string, extension: string)
    requires KnownKind(fileType, extension)
    requires forall k :: 0 <= k < |d| ==> NumeralChar(d[k])
    ensures NumberPart(fileType + d + "." + extension, fileType) == d
  {
    if fileType == "recordings" {
      assert fileType + d + "." + extension == "recordings" + d + ".mp4";
      NumberPartRecordings(d);
    } else {
      assert fileType + d + "." + extension == "feedback" + d + ".txt";
      NumberPartFeedback(d);
    }
  }

  /** The tail `{file_type}{k}.{extension}` of a generated name holds no `_` and strips back to `str(k)`. */
  lemma TailRoundTrip(fileType: string, k: int, extension: string)
    requires KnownKind(fileType, extension)
    ensures '_' !in fileType + IntToString(k) + "." + extension
    ensures fileType <= fileType + IntToString(k) + "." + extension
    ensures NumberPart(fileType + IntToString(k) + "." + extension, fileType) == IntToString(k)
  {
    var d := IntToString(k);
    IntToStringNumeral(k);
    NumeralHasNoUnderscore(d);
    TailShape(fileType, d, extension);
    TailNumberPart(fileType, d, extension);
  }

  /** A name whose last segment strips back to the numeral of `k` reads back as `k`. */
  lemma SuffixNumberOf(name: string, tail: string, fileType: string, minParts: nat, k: int)
    requires LastSegment(name, '_') == tail
    requires |Split(name, '_')| >= minParts && fileType <= tail
    requires NumberPart(tail, fileType) == IntToString(k)
    ensures SuffixNumber(name, fileType, minParts) == Some(k)
  {
    ParseIntToString(k);
  }

  /** A generated name reads back as its own index under the suffix rule. */
  lemma ArtifactNameRoundTrip(head: string, fileType: string, k: int, extension: string, minParts: nat)
    requires KnownKind(fileType, extension)
    requires Occurrences(head, '_') + 2 >= minParts
    ensures SuffixNumber(ArtifactName(head, fileType, k, extension), fileType, minParts) == Some(k)
    ensures SuffixRule(fileType, minParts)(ArtifactName(head, fileType, k, extension)) == Some(k)
  {
    var tail := fileType + IntToString(k) + "." + extension;
    var name := ArtifactName(head, fileType, k, extension);
    TailRoundTrip(fileType, k, extension);
    ConcatAfterSeparator(head, fileType, IntToString(k), extension);
    LastSegmentAfterSeparator(head, tail, '_');
    SuffixNumberOf(name, tail, fileType, minParts, k);
    SuffixRuleApply(name, fileType, minParts);
  }

  lemma ConcatAfterSeparator(head: string, fileType: string, d: string, extension: string)
    ensures head + "_" + fileType + d + "." + extension == head + ['_'] + (fileType + d + "." + extension)
  {
  }

  /** The next index computed over a container, for names `{head}_{file_type}...`. */
  function NextIndex(container: seq<string>, head: string, fileType: string, minParts: nat): int
  {
    CountFrom(ListBlobs(container, head + "_" + fileType), fileType, minParts)
  }

  /** Once a generated name with index `k` is stored, the next index exceeds `k`. */
  lemma NextIndexAboveStored(container: seq<string>, head: string, fileType: string, k: int, extension: string, minParts: nat)
    requires KnownKind(fileType, extension)
    requires Occurrences(head, '_') + 2 >= minParts
    requires ArtifactName(head, fileType, k, extension) in container
    ensures NextIndex(container, head, fileType, minParts) > k
  {
    var name := ArtifactName(head, fileType, k, extension);
    var listed := ListBlobs(container, head + "_" + fileType);
    assert name == (head + "_" + fileType) + (IntToString(k) + "." + extension);
    assert name in listed;
    ArtifactNameRoundTrip(head, fileType, k, extension, minParts);
    CountByIsNextIndex(listed, SuffixRule(fileType, minParts));
  }

  /** The generated name for the next index is not in the container yet. */
  lemma NextNameIsFresh(container: seq<string>, head: string, fileType: string, extension: string, minParts: nat)
    requires KnownKind(fileType, extension)
    requires Occurrences(head, '_') + 2 >= minParts
    ensures ArtifactName(head, fileType, NextIndex(container, head, fileType, minParts), extension) !in container
  {
    var k := NextIndex(container, head, fileType, minParts);
    var name := ArtifactName(head, fileType, k, extension);
    var listed := ListBlobs(container, head + "_" + fileType);
    assert name == (head + "_" + fileType) + (IntToString(k) + "." + extension);
    ArtifactNameRoundTrip(head, fileType, k, extension, minParts);
    CountByIsNextIndex(listed, SuffixRule(fileType, minParts));
    assert name !in listed;
  }

  /** Storing the generated name for the next index raises the next index by exactly one. */
  lemma NextIndexAfterStore(container: seq<string>, head: string, fileType: string, extension: string, minParts: nat, k: int)
    requires KnownKind(fileType, extension)
    requires Occurrences(head, '_') + 2 >= minParts
    requires k == NextIndex(container, head, fileType, minParts)
    ensures NextIndex(container + [ArtifactName(head, fileType, k, extension)], head, fileType, minParts) == k + 1
  {
    var prefix := head + "_" + fileType;
    var name := ArtifactName(head, fileType, k, extension);
    ArtifactNameHasPrefix(head, fileType, k, extension);
    ListBlobsAppend(container, name, prefix);
    ArtifactNameRoundTrip(head, fileType, k, extension, minParts);
    CountByAppend(ListBlobs(container, prefix), name, SuffixRule(fileType, minParts));
  }

  lemma ArtifactNameHasPrefix(head: string, fileType: string, k: int, extension: string)
    ensures head + "_" + fileType <= ArtifactName(head, fileType, k, extension)
  {
    assert ArtifactName(head, fileType, k, extension) == (head + "_" + fileType) + (IntToString(k) + "." + extension);
  }

  lemma CountByAppend(names: seq<string>, x: string, number: string -> Option<int>)
    ensures CountBy(names + [x], number) == Bump(CountBy(names, number), number(x))
  {
    assert (names + [x])[..|names|] == names;
  }

  lemma {:induction false} ListBlobsAppend(container: seq<string>, x: string, prefix: string)
    requires prefix <= x
    ensures ListBlobs(container + [x], prefix) == ListBlobs(container, prefix) + [x]
  {
    if container == [] {
      assert container + [x] == [x];
      assert [x][1..] == [];
    } else {
      assert (container + [x])[1..] == container[1..] + [x];
      ListBlobsAppend(container[1..], x, prefix);
    }
  }
}
