/** Parameter-key classification of an OCDBT checkpoint
    (serialization/ocdbt_utils.py). After per-process files are merged, the
    keys of the merged key-value store are listed; every array must have both
    a `.zarray` metadata key and at least one data key. The store itself is
    not modelled: the listed keys, already decoded to strings, are the input. */
module OcdbtUtils {
  import opened Wrappers
  import opened Strings

  const ZarraySuffix: string := "/.zarray"

  predicate IsDigit(c: char)
  {
    '0' <= c <= '9'
  }

  /** `\d+(\.\d+)*`: one or more groups of digits joined by single dots. */
  predicate IsDigitGroups(s: string)
  {
    && |s| > 0
    && IsDigit(s[0]) && IsDigit(s[|s| - 1])
    && (forall i :: 0 <= i < |s| ==> IsDigit(s[i]) || s[i] == '.')
    && (forall i :: 0 <= i < |s| - 1 ==> !(s[i] == '.' && s[i + 1] == '.'))
  }

  /** `s` has a `/` at `j` followed, to its end, by digit groups. */
  predicate DigitSuffixAt(s: string, j: int)
  {
    0 <= j < |s| && s[j] == '/' && IsDigitGroups(s[j + 1..])
  }

  /** Index of the last `/` in `s`, if any. */
  function LastSlash(s: string): (r: Option<nat>)
    ensures r.Some? ==> r.value < |s| && s[r.value] == '/'
    ensures r.Some? ==> forall i :: r.value < i < |s| ==> s[i] != '/'
    ensures r.None? ==> forall i :: 0 <= i < |s| ==> s[i] != '/'
  {
    if s == [] then None
    else if s[|s| - 1] == '/' then Some(|s| - 1)
    else LastSlash(s[..|s| - 1])
  }

  /** `s` ends in `/` followed by digit groups, the match being anchored at
      the very end of `s`. */
  function StripAtEnd(s: string): (r: string)
    ensures r == s || (|r| < |s| && s[..|r|] == r && DigitSuffixAt(s, |r|))
    ensures forall j {:trigger DigitSuffixAt(s, j)} :: DigitSuffixAt(s, j) ==> r == s[..j]
  {
    var slash := LastSlash(s);
    if slash.Some? && IsDigitGroups(s[slash.value + 1..]) then s[..slash.value] else s
  }

  /** `re.sub(r'/\d+(\.\d+)*$', '', key)`. Python's `$` also matches just
      before a final newline, so a key ending in a newline is stripped in
      front of it. */
  function StripShardingSuffix(key: string): (r: string)
    ensures (|key| == 0 || key[|key| - 1] != '\n') ==>
      forall j {:trigger DigitSuffixAt(key, j)} :: DigitSuffixAt(key, j) ==> r == key[..j]
    ensures (|key| == 0 || key[|key| - 1] != '\n') ==>
      r == key || (|r| < |key| && key[..|r|] == r && DigitSuffixAt(key, |r|))
    ensures |key| > 0 && key[|key| - 1] == '\n' ==> |r| > 0 && r[|r| - 1] == '\n'
  {
    if |key| > 0 && key[|key| - 1] == '\n'
    then StripAtEnd(key[..|key| - 1]) + "\n"
    else StripAtEnd(key)
  }

  /** A key ending in `/` and digit groups loses exactly that suffix. */
  lemma StripsDigitSuffix(key: string, j: nat)
    requires j < |key| && key[|key| - 1] != '\n'
    requires key[j] == '/' && IsDigitGroups(key[j + 1..])
    ensures StripShardingSuffix(key) == key[..j]
  {
    assert DigitSuffixAt(key, j);
  }

  /** The source comment's examples of keys that lose a sharding suffix. */
  lemma StripShardingSuffixExamples()
    ensures StripShardingSuffix("b/0.0") == "b"
    ensures StripShardingSuffix("b/0.1") == "b"
    ensures StripShardingSuffix("a/0") == "a"
    ensures StripShardingSuffix("a/1/2") == "a/1"
  {
    DotExamples();
    SlashExamples();
  }

  lemma DotExamples()
    ensures StripShardingSuffix("b/0.0") == "b"
    ensures StripShardingSuffix("b/0.1") == "b"
  {
    assert "b/0.0"[2..] == "0.0" && IsDigitGroups("0.0");
    StripsDigitSuffix("b/0.0", 1);
    assert "b/0.1"[2..] == "0.1" && IsDigitGroups("0.1");
    StripsDigitSuffix("b/0.1", 1);
  }

  lemma SlashExamples()
    ensures StripShardingSuffix("a/0") == "a"
    ensures StripShardingSuffix("a/1/2") == "a/1"
  {
    assert "a/0"[2..] == "0" && IsDigitGroups("0");
    StripsDigitSuffix("a/0", 1);
    assert "a/1/2"[4..] == "2" && IsDigitGroups("2");
    StripsDigitSuffix("a/1/2", 3);
  }

  /** Keys whose last component is not digit groups are kept whole: the
      metadata key, and a trailing dot. */
  lemma SuffixKeptExamples()
    ensures StripShardingSuffix("a/.zarray") == "a/.zarray"
    ensures StripShardingSuffix("a/0.") == "a/0."
  {
    assert "a/.zarray"[2..] == ".zarray";
    assert LastSlash("a/.zarray") == Some(1) by {
      var s := "a/.zarray";
      assert s[..8] == "a/.zarra";
      assert LastSlash(s) == LastSlash("a/.zarra");
      assert "a/.zarra"[..7] == "a/.zarr";
      assert LastSlash("a/.zarra") == LastSlash("a/.zarr");
      assert "a/.zarr"[..6] == "a/.zar";
      assert LastSlash("a/.zarr") == LastSlash("a/.zar");
      assert "a/.zar"[..5] == "a/.za";
      assert LastSlash("a/.zar") == LastSlash("a/.za");
      assert "a/.za"[..4] == "a/.z";
      assert LastSlash("a/.za") == LastSlash("a/.z");
      assert "a/.z"[..3] == "a/.";
      assert LastSlash("a/.z") == LastSlash("a/.");
      assert "a/."[..2] == "a/";
      assert LastSlash("a/.") == LastSlash("a/");
    }
    assert LastSlash("a/0.") == Some(1) by {
      assert "a/0."[..3] == "a/0";
      assert "a/0"[..2] == "a/";
    }
    assert "a/0."[2..] == "0.";
  }

  /** The class of one listed key after its sharding suffix is stripped. */
  datatype KeyClass = Zarray(name: string) | Data(name: string)

  function Classify(key: string): (c: KeyClass)
    ensures c.Zarray? <==> EndsWith(StripShardingSuffix(key), ZarraySuffix)
    ensures c.Zarray? ==> StripShardingSuffix(key) == c.name + ZarraySuffix
    ensures c.Data? ==> c.name == StripShardingSuffix(key)
  {
    var stripped := StripShardingSuffix(key);
    if EndsWith(stripped, ZarraySuffix)
    then Zarray(stripped[..|stripped| - |ZarraySuffix|])
    else Data(stripped)
  }

  predicate EndsWith(s: string, suffix: string)
  {
    |suffix| <= |s| && s[|s| - |suffix|..] == suffix
  }

  /** The classes of the listed keys, in listing order. */
  function Classes(keys: seq<string>): (cs: seq<KeyClass>)
    ensures |cs| == |keys|
  {
    seq(|keys|, i requires 0 <= i < |keys| => Classify(keys[i]))
  }

  /** The names added to `with_zarray` by a run over keys of classes `cs`. */
  function ZarrayNamesOf(cs: seq<KeyClass>): set<string>
  {
    if cs == [] then {}
    else ZarrayNamesOf(cs[..|cs| - 1]) + (if cs[|cs| - 1].Zarray? then {cs[|cs| - 1].name} else {})
  }

  /** The names added to `without_zarray` by a run over keys of classes `cs`. */
  function DataNamesOf(cs: seq<KeyClass>): set<string>
  {
    if cs == [] then {}
    else DataNamesOf(cs[..|cs| - 1]) + (if cs[|cs| - 1].Data? then {cs[|cs| - 1].name} else {})
  }

  /** `with_zarray`: names that have a `.zarray` key. */
  function ZarrayNames(keys: seq<string>): set<string>
  {
    ZarrayNamesOf(Classes(keys))
  }

  /** `without_zarray`: names that have a data key. */
  function DataNames(keys: seq<string>): set<string>
  {
    DataNamesOf(Classes(keys))
  }

  lemma {:induction false} NamesOfMembership(cs: seq<KeyClass>, n: string)
    ensures n in ZarrayNamesOf(cs) <==> Zarray(n) in cs
    ensures n in DataNamesOf(cs) <==> Data(n) in cs
  {
    if cs != [] {
      var init := cs[..|cs| - 1];
      NamesOfMembership(init, n);
      assert cs == init + [cs[|cs| - 1]];
    }
  }

  /** What the two sets hold, independently of the order of the keys. */
  lemma NamesMembership(keys: seq<string>, n: string)
    ensures n in ZarrayNames(keys) <==> exists k :: k in keys && Classify(k) == Zarray(n)
    ensures n in DataNames(keys) <==> exists k :: k in keys && Classify(k) == Data(n)
  {
    var cs := Classes(keys);
    NamesOfMembership(cs, n);
    if Zarray(n) in cs {
      var i :| 0 <= i < |cs| && cs[i] == Zarray(n);
      assert keys[i] in keys;
    }
    if Data(n) in cs {
      var i :| 0 <= i < |cs| && cs[i] == Data(n);
      assert keys[i] in keys;
    }
    if k :| k in keys && Classify(k) == Zarray(n) {
      var i :| 0 <= i < |keys| && keys[i] == k;
      assert cs[i] == Zarray(n);
    }
    if k :| k in keys && Classify(k) == Data(n) {
      var i :| 0 <= i < |keys| && keys[i] == k;
      assert cs[i] == Data(n);
    }
  }

  /** The key loop: adds each key's name to one of the two sets. */
  method CollectParams(keys: seq<string>) returns (withZarray: set<string>, withoutZarray: set<string>)
    ensures withZarray == ZarrayNames(keys)
    ensures withoutZarray == DataNames(keys)
  {
    withZarray, withoutZarray := {}, {};
    ghost var cs := Classes(keys);
    var i := 0;
    while i < |keys|
      invariant 0 <= i <= |keys|
      invariant withZarray == ZarrayNamesOf(cs[..i])
      invariant withoutZarray == DataNamesOf(cs[..i])
    {
      withZarray, withoutZarray := CollectParam(keys[i], withZarray, withoutZarray);
      NamesOfSnoc(cs, i);
      i := i + 1;
    }
    assert cs[..i] == cs;
  }

  /** One iteration of the key loop: the key's name goes to `with_zarray`
      when it names a `.zarray` key and to `without_zarray` otherwise. */
  method CollectParam(key: string, withZarray: set<string>, withoutZarray: set<string>)
    returns (withZarray': set<string>, withoutZarray': set<string>)
    ensures withZarray' == withZarray + (if Classify(key).Zarray? then {Classify(key).name} else {})
    ensures withoutZarray' == withoutZarray + (if Classify(key).Data? then {Classify(key).name} else {})
  {
    var c := Classify(key);
    if c.Zarray? {
      withZarray', withoutZarray' := withZarray + {c.name}, withoutZarray;
    } else {
      withZarray', withoutZarray' := withZarray, withoutZarray + {c.name};
    }
  }

  lemma NamesOfSnoc(cs: seq<KeyClass>, i: nat)
    requires i < |cs|
    ensures ZarrayNamesOf(cs[..i + 1]) == ZarrayNamesOf(cs[..i]) + (if cs[i].Zarray? then {cs[i].name} else {})
    ensures DataNamesOf(cs[..i + 1]) == DataNamesOf(cs[..i]) + (if cs[i].Data? then {cs[i].name} else {})
  {
    assert cs[..i + 1][..i] == cs[..i];
  }

  datatype ValidationOutcome =
    | Skipped                                       // zarr3, or no keys listed
    | Valid
    | ParamsMissing(missing: seq<string>, total: nat)   // names with `.zarray` but no data
    | ZarrayMissing(missing: seq<string>, total: nat)   // names with data but no `.zarray`

  /** `_validate_params` after the store has been listed. */
  method ValidateParams(keys: seq<string>, useZarr3: bool) returns (r: ValidationOutcome)
    ensures useZarr3 || keys == [] ==> r == Skipped
    ensures !useZarr3 && keys != [] ==> r != Skipped
    ensures r == Valid <==> !useZarr3 && keys != [] && ZarrayNames(keys) == DataNames(keys)
    ensures r.ParamsMissing? <==>
      !useZarr3 && keys != [] && exists n :: n in ZarrayNames(keys) && n !in DataNames(keys)
    ensures r.ZarrayMissing? <==>
      && !useZarr3 && keys != []
      && ZarrayNames(keys) <= DataNames(keys)
      && exists n :: n in DataNames(keys) && n !in ZarrayNames(keys)
    ensures r.ParamsMissing? ==>
      && r.missing == SortedStrings(ZarrayNames(keys) - DataNames(keys))
      && r.total == |ZarrayNames(keys) + DataNames(keys)|
      && 0 < |r.missing| <= r.total
    ensures r.ZarrayMissing? ==>
      && r.missing == SortedStrings(DataNames(keys) - ZarrayNames(keys))
      && r.total == |ZarrayNames(keys) + DataNames(keys)|
      && 0 < |r.missing| <= r.total
  {
    if useZarr3 || |keys| == 0 {
      return Skipped;
    }
    var withZarray, withoutZarray := CollectParams(keys);
    var unique := withZarray + withoutZarray;
    var missingParams := unique - withoutZarray;
    assert missingParams == withZarray - withoutZarray;
    if missingParams != {} {
      var n :| n in missingParams;
      SubsetCard(missingParams, unique);
      return ParamsMissing(SortedStrings(missingParams), |unique|);
    }
    var missingZarrays := unique - withZarray;
    assert missingZarrays == withoutZarray - withZarray;
    if missingZarrays != {} {
      var n :| n in missingZarrays;
      SubsetCard(missingZarrays, unique);
      return ZarrayMissing(SortedStrings(missingZarrays), |unique|);
    }
    assert withZarray == withoutZarray;
    return Valid;
  }

  lemma SubsetCard(a: set<string>, b: set<string>)
    requires a <= b
    ensures |a| <= |b|
  {
    assert b == a + (b - a);
  }

  /** Validation succeeds exactly when every name that has a `.zarray` key
      also has a data key and vice versa. */
  lemma ValidIffEveryNameComplete(keys: seq<string>)
    ensures ZarrayNames(keys) == DataNames(keys) <==>
      forall n :: Zarray(n) in Classes(keys) <==> Data(n) in Classes(keys)
  {
    forall n ensures n in ZarrayNames(keys) <==> Zarray(n) in Classes(keys)
      ensures n in DataNames(keys) <==> Data(n) in Classes(keys)
    {
      NamesOfMembership(Classes(keys), n);
    }
  }

  /** A metadata key `n/.zarray` is not stripped, and names `n`. */
  lemma ZarrayKeyClass(key: string, n: string)
    requires key == n + ZarraySuffix
    ensures StripShardingSuffix(key) == key
    ensures Classify(key) == Zarray(n)
  {
    assert key[|n|] == '/';
    assert forall i :: |n| < i < |key| ==> key[i] != '/' by {
      forall i | |n| < i < |key| ensures key[i] != '/' {
        assert key[i] == ZarraySuffix[i - |n|];
      }
    }
    var slash := LastSlash(key);
    assert slash == Some(|n|);
    assert key[|n| + 1..] == ".zarray";
    assert !IsDigit(key[|n| + 1]);
    assert key[|key| - |ZarraySuffix|..] == ZarraySuffix;
  }

  /** A data key `n/d`, for digit groups `d` and a name `n` that does not
      itself end in `/.zarray`, names `n`. */
  lemma DataKeyClass(key: string, n: string, d: string)
    requires key == n + "/" + d
    requires IsDigitGroups(d) && !EndsWith(n, ZarraySuffix)
    ensures Classify(key) == Data(n)
  {
    assert key[|n|] == '/' && key[|n| + 1..] == d && key[..|n|] == n;
    assert key[|key| - 1] == d[|d| - 1];
    StripsDigitSuffix(key, |n|);
  }

  /** A key without any `/` is never stripped. */
  lemma NoSlashKept(key: string)
    requires forall i :: 0 <= i < |key| ==> key[i] != '/'
    ensures StripShardingSuffix(key) == key
  {
  }

  /** Classifying a listing split in two classifies each part. */
  lemma ClassesAppend(x: seq<string>, y: seq<string>)
    ensures Classes(x + y) == Classes(x) + Classes(y)
  {
    var whole, parts := Classes(x + y), Classes(x) + Classes(y);
    forall i | 0 <= i < |x + y| ensures whole[i] == parts[i] {
      if i < |x| {
        assert (x + y)[i] == x[i];
      } else {
        assert (x + y)[i] == y[i - |x|];
      }
    }
  }

  /** The two sets of a run over classes `x + y` are the unions of those of
      the two parts. */
  lemma {:induction false} NamesOfAppend(x: seq<KeyClass>, y: seq<KeyClass>)
    ensures ZarrayNamesOf(x + y) == ZarrayNamesOf(x) + ZarrayNamesOf(y)
    ensures DataNamesOf(x + y) == DataNamesOf(x) + DataNamesOf(y)
    decreases |y|
  {
    if y == [] {
      assert x + y == x;
    } else {
      var init := y[..|y| - 1];
      assert (x + y)[..|x + y| - 1] == x + init;
      assert (x + y)[|x + y| - 1] == y[|y| - 1];
      NamesOfAppend(x, init);
    }
  }

  /** The two sets of a listing are the unions of those of its parts, so
      they do not depend on how the listing is split. */
  lemma NamesAppend(x: seq<string>, y: seq<string>)
    ensures ZarrayNames(x + y) == ZarrayNames(x) + ZarrayNames(y)
    ensures DataNames(x + y) == DataNames(x) + DataNames(y)
  {
    ClassesAppend(x, y);
    NamesOfAppend(Classes(x), Classes(y));
  }

  /** The keys of the key loop's comment, for parameters named `a`, `b`,
      `c` and `d`, with the comment's `b.zarray` read as the metadata key
      `b/.zarray` that the sets given there call for. */
  function CommentKeys(a: string, b: string, c: string, d: string): (keys: seq<string>)
    ensures |keys| == 7
  {
    [a + ZarraySuffix, a + "/" + "0"]
    + [b + ZarraySuffix, b + "/" + "0.0", b + "/" + "0.1"]
    + [c + "/" + "0"]
    + [d + ZarraySuffix]
  }

  /** Names the comment's example can use: distinct, and none of them
      itself ending in `/.zarray`. */
  predicate CommentNames(a: string, b: string, c: string, d: string)
  {
    && !EndsWith(a, ZarraySuffix) && !EndsWith(b, ZarraySuffix)
    && !EndsWith(c, ZarraySuffix) && !EndsWith(d, ZarraySuffix)
    && a != b && a != c && a != d && b != c && b != d && c != d
  }

  /** A listing of one metadata key `n/.zarray`. */
  lemma ZarrayKeyClasses(n: string)
    ensures Classes([n + ZarraySuffix]) == [Zarray(n)]
  {
    ZarrayKeyClass([n + ZarraySuffix][0], n);
  }

  /** A listing of one data key `n/d`. */
  lemma DataKeyClasses(n: string, d: string)
    requires IsDigitGroups(d) && !EndsWith(n, ZarraySuffix)
    ensures Classes([n + "/" + d]) == [Data(n)]
  {
    DataKeyClass([n + "/" + d][0], n, d);
  }

  /** `a`'s keys: its metadata and one shard. */
  lemma CommentClassesOfA(a: string)
    requires !EndsWith(a, ZarraySuffix)
    ensures Classes([a + ZarraySuffix, a + "/" + "0"]) == [Zarray(a), Data(a)]
  {
    assert IsDigitGroups("0");
    ZarrayKeyClasses(a);
    DataKeyClasses(a, "0");
    ClassesAppend([a + ZarraySuffix], [a + "/" + "0"]);
    assert [a + ZarraySuffix] + [a + "/" + "0"] == [a + ZarraySuffix, a + "/" + "0"];
  }

  /** `b`'s keys: its metadata and two shards. */
  lemma CommentClassesOfB(b: string)
    requires !EndsWith(b, ZarraySuffix)
    ensures Classes([b + ZarraySuffix, b + "/" + "0.0", b + "/" + "0.1"]) == [Zarray(b), Data(b), Data(b)]
  {
    assert IsDigitGroups("0.0") && IsDigitGroups("0.1");
    ZarrayKeyClasses(b);
    DataKeyClasses(b, "0.0");
    DataKeyClasses(b, "0.1");
    ClassesAppend([b + ZarraySuffix], [b + "/" + "0.0"]);
    assert [b + ZarraySuffix] + [b + "/" + "0.0"] == [b + ZarraySuffix, b + "/" + "0.0"];
    ClassesAppend([b + ZarraySuffix, b + "/" + "0.0"], [b + "/" + "0.1"]);
    assert [b + ZarraySuffix, b + "/" + "0.0"] + [b + "/" + "0.1"]
      == [b + ZarraySuffix, b + "/" + "0.0", b + "/" + "0.1"];
  }

  /** Every key of the comment classifies as the comment's sets say. */
  lemma CommentKeyClasses(a: string, b: string, c: string, d: string)
    requires CommentNames(a, b, c, d)
    ensures Classes(CommentKeys(a, b, c, d)) ==
      [Zarray(a), Data(a), Zarray(b), Data(b), Data(b), Data(c), Zarray(d)]
  {
    var ka, kb, kc, kd := [a + ZarraySuffix, a + "/" + "0"],
      [b + ZarraySuffix, b + "/" + "0.0", b + "/" + "0.1"], [c + "/" + "0"], [d + ZarraySuffix];
    CommentClassesOfA(a);
    CommentClassesOfB(b);
    assert IsDigitGroups("0");
    DataKeyClasses(c, "0");
    ZarrayKeyClasses(d);
    ClassesAppend(ka, kb);
    ClassesAppend(ka + kb, kc);
    ClassesAppend(ka + kb + kc, kd);
  }

  /** The classes the comment lists give its two sets. */
  lemma CommentClassNames(a: string, b: string, c: string, d: string)
    ensures ZarrayNamesOf([Zarray(a), Data(a), Zarray(b), Data(b), Data(b), Data(c), Zarray(d)]) == {a, b, d}
    ensures DataNamesOf([Zarray(a), Data(a), Zarray(b), Data(b), Data(b), Data(c), Zarray(d)]) == {a, b, c}
  {
    var cs := [Zarray(a), Data(a), Zarray(b), Data(b), Data(b), Data(c), Zarray(d)];
    forall n ensures n in ZarrayNamesOf(cs) <==> n in {a, b, d}
      ensures n in DataNamesOf(cs) <==> n in {a, b, c}
    {
      NamesOfMembership(cs, n);
    }
  }

  /** The comment's sets: `.zarray` for a, b, d and data for a, b, c. */
  lemma CommentKeyNames(a: string, b: string, c: string, d: string)
    requires CommentNames(a, b, c, d)
    ensures ZarrayNames(CommentKeys(a, b, c, d)) == {a, b, d}
    ensures DataNames(CommentKeys(a, b, c, d)) == {a, b, c}
  {
    CommentKeyClasses(a, b, c, d);
    CommentClassNames(a, b, c, d);
  }

  /** Validating the comment's keys fails on the missing params first, and
      reports `d` out of four names. */
  method CommentKeysValidation(a: string, b: string, c: string, d: string) returns (r: ValidationOutcome)
    requires CommentNames(a, b, c, d)
    ensures r == ParamsMissing([d], 4)
  {
    r := ValidateParams(CommentKeys(a, b, c, d), false);
    CommentKeyNames(a, b, c, d);
    CommentSets(a, b, c, d);
  }

  /** What the error reports for the comment's two sets. */
  lemma CommentSets(a: string, b: string, c: string, d: string)
    requires a != b && a != c && a != d && b != c && b != d && c != d
    ensures {a, b, d} - {a, b, c} == {d}
    ensures SortedStrings({a, b, d} - {a, b, c}) == [d]
    ensures |{a, b, d} + {a, b, c}| == 4
  {
    assert {a, b, d} - {a, b, c} == {d};
    SortedStringsIs({d}, [d]);
    assert {a, b, d} + {a, b, c} == {a, b, c} + {d};
    assert |{a, b, c}| == 3;
  }

  /** The letters of the comment are such names. */
  lemma CommentLettersAreNames()
    ensures CommentNames("a", "b", "c", "d")
  {
  }

  /** The comment's key `b.zarray`, read as written, has no `/` and so is
      the data key of a parameter named `b.zarray`. */
  lemma LiteralCommentKey()
    ensures Classify("b.zarray") == Data("b.zarray")
  {
    var key := "b.zarray";
    assert forall i :: 0 <= i < |key| ==> key[i] != '/';
    NoSlashKept(key);
    assert key[|key| - |ZarraySuffix|] == 'b';
  }

  datatype ProcessId = Named(id: string) | Index(index: int)

  /** `get_process_index_for_subdir`: with OCDBT in use, a non-empty override
      wins over the process index (`override or process_index()`). */
  function ProcessIndexForSubdir(useOcdbt: bool, overrideId: Option<string>, processIndex: int)
    : (r: Option<ProcessId>)
    ensures !useOcdbt <==> r.None?
    ensures useOcdbt && overrideId.Some? && overrideId.value != "" ==> r == Some(Named(overrideId.value))
    ensures useOcdbt && (overrideId.None? || overrideId.value == "") ==> r == Some(Index(processIndex))
  {
    if !useOcdbt then None
    else if overrideId.Some? && overrideId.value != "" then Some(Named(overrideId.value))
    else Some(Index(processIndex))
  }
}
