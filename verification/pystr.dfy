/** The few Python string operations the core uses, on strings as
    sequences of code points (Python's `len` counts code points). */
module PyStr {
  import opened Wrappers

  /** `s.startswith(prefix)`. */
  predicate StartsWith(s: string, prefix: string)
  {
    |prefix| <= |s| && s[..|prefix|] == prefix
  }

  /** The position of the first `sep` in `s`, or `|s|` when there is none. */
  function IndexOf(s: string, sep: char): (i: nat)
    ensures i <= |s|
    ensures i < |s| ==> s[i] == sep
    ensures sep !in s[..i]
  {
    if |s| == 0 then 0
    else if s[0] == sep then 0
    else
      var i := 1 + IndexOf(s[1..], sep);
      assert s[..i] == [s[0]] + s[1..][..i - 1];
      i
  }

  /** `s.split(sep)` for a one-character separator: the text between
      consecutive separators, empty fields kept, never an empty list. */
  function Split(s: string, sep: char): (fields: seq<string>)
    ensures |fields| >= 1
    decreases |s|
  {
    var i := IndexOf(s, sep);
    if i == |s| then [s] else [s[..i]] + Split(s[i + 1..], sep)
  }

  /** `sep.join(fields)`. */
  function Join(fields: seq<string>, sep: char): string
  {
    if |fields| == 0 then ""
    else if |fields| == 1 then fields[0]
    else fields[0] + [sep] + Join(fields[1..], sep)
  }

  /** `s.split(sep)[k]`, which raises IndexError when there are too few fields. */
  function Field(s: string, sep: char, k: nat): Result<string, PyError>
  {
    var fields := Split(s, sep);
    if k < |fields| then Success(fields[k]) else Failure(IndexError)
  }

  /** One step of the split: the text up to the first separator, then the
      fields of what follows it. */
  lemma SplitUnfold(s: string, sep: char)
    ensures IndexOf(s, sep) == |s| ==> Split(s, sep) == [s]
    ensures IndexOf(s, sep) < |s| ==>
      Split(s, sep) == [s[..IndexOf(s, sep)]] + Split(s[IndexOf(s, sep) + 1..], sep)
  {
  }

  lemma ConsParts<T>(x: T, xs: seq<T>, ys: seq<T>)
    requires ys == [x] + xs
    ensures |ys| == 1 + |xs| && ys[0] == x && ys[1..] == xs
  {
  }

  /** The first field runs up to the first separator, or is the whole
      string when there is none. */
  lemma FirstField(s: string, sep: char)
    ensures Split(s, sep)[0] == s[..IndexOf(s, sep)]
  {
    var i := IndexOf(s, sep);
    SplitUnfold(s, sep);
    if i < |s| {
      ConsParts(s[..i], Split(s[i + 1..], sep), Split(s, sep));
    } else {
      assert s[..i] == s;
    }
  }

  /** Joining the fields back with the separator gives the original string. */
  lemma {:induction false} JoinSplit(s: string, sep: char)
    ensures Join(Split(s, sep), sep) == s
    decreases |s|
  {
    var i := IndexOf(s, sep);
    SplitUnfold(s, sep);
    if i < |s| {
      var head, rest := s[..i], s[i + 1..];
      JoinCons(head, Split(rest, sep), sep);
      JoinSplit(rest, sep);
      assert s == head + [sep] + rest;
    }
  }

  lemma JoinCons(first: string, others: seq<string>, sep: char)
    requires |others| >= 1
    ensures Join([first] + others, sep) == first + [sep] + Join(others, sep)
  {
    assert ([first] + others)[1..] == others;
  }

  /** No field contains the separator. */
  lemma {:induction false} SplitFieldsAreSeparatorFree(s: string, sep: char)
    ensures forall k :: 0 <= k < |Split(s, sep)| ==> sep !in Split(s, sep)[k]
    decreases |s|
  {
    var i := IndexOf(s, sep);
    var fields := Split(s, sep);
    SplitUnfold(s, sep);
    if i < |s| {
      var rest := s[i + 1..];
      ConsParts(s[..i], Split(rest, sep), fields);
      SplitFieldsAreSeparatorFree(rest, sep);
      forall k | 0 <= k < |fields| ensures sep !in fields[k] {
        if k > 0 {
          assert fields[k] == fields[1..][k - 1];
        }
      }
    } else {
      assert s[..i] == s;
    }
  }

  /** Splitting a join of separator-free fields gives the fields back. */
  lemma {:induction false} SplitJoin(fields: seq<string>, sep: char)
    requires |fields| >= 1
    requires forall k :: 0 <= k < |fields| ==> sep !in fields[k]
    ensures Split(Join(fields, sep), sep) == fields
    decreases |fields|
  {
    var f := fields[0];
    if |fields| == 1 {
      assert f[..|f|] == f;
      assert IndexOf(f, sep) == |f|;
      SplitUnfold(f, sep);
    } else {
      var rest := Join(fields[1..], sep);
      var s := f + [sep] + rest;
      JoinCons(f, fields[1..], sep);
      assert fields == [f] + fields[1..];
      assert s[|f|] == sep;
      assert s[..|f|] == f;
      assert IndexOf(s, sep) == |f|;
      assert s[|f| + 1..] == rest;
      SplitUnfold(s, sep);
      SplitJoin(fields[1..], sep);
    }
  }

  /** The second field of `s.split(sep)`: it exists exactly when `s`
      holds the separator, and it is the text after the first separator
      up to the next one (or to the end). */
  lemma SecondField(s: string, sep: char)
    ensures Field(s, sep, 1).Failure? <==> sep !in s
    ensures Field(s, sep, 1).Success? ==>
      var rest := s[IndexOf(s, sep) + 1..];
      Field(s, sep, 1).value == rest[..IndexOf(rest, sep)]
  {
    var i := IndexOf(s, sep);
    var fields := Split(s, sep);
    SplitUnfold(s, sep);
    if i < |s| {
      var rest := s[i + 1..];
      ConsParts(s[..i], Split(rest, sep), fields);
      FirstField(rest, sep);
      assert fields[1] == fields[1..][0];
      assert sep in s;
    } else {
      assert s[..i] == s;
      assert |fields| == 1;
    }
  }
}
