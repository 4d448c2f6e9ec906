/**
 * The class autoloader registered for the bundled HTTP library: it maps a class name
 * to a file below the library directory and loads that file when it exists.
 */
module Autoload {
  import opened Common

  /** PHP's `explode`: the pieces of `s` between occurrences of `sep`; never empty. */
  function Explode(sep: char, s: string): (parts: seq<string>)
    ensures |parts| >= 1
    ensures |parts| == 1 <==> sep !in s
  {
    if |s| == 0 then [""]
    else
      var rest := Explode(sep, s[1..]);
      if s[0] == sep then [""] + rest
      else [[s[0]] + rest[0]] + rest[1..]
  }

  /** PHP's `implode`: the pieces joined with `glue` between neighbours. */
  function Implode(glue: string, parts: seq<string>): (s: string)
    ensures |parts| == 0 ==> s == ""
    ensures |parts| >= 1 ==> StartsWith(s, parts[0])
    ensures |parts| >= 1 ==> EndsWith(s, parts[|parts| - 1])
  {
    if |parts| == 0 then ""
    else if |parts| == 1 then parts[0]
    else
      assert parts[1..][|parts[1..]| - 1] == parts[|parts| - 1];
      parts[0] + glue + Implode(glue, parts[1..])
  }

  /** `s` with every occurrence of `from` replaced by `to`. */
  function Replace(s: string, from: char, to: char): (r: string)
    ensures |r| == |s|
    ensures forall k :: 0 <= k < |s| ==> r[k] == if s[k] == from then to else s[k]
  {
    if |s| == 0 then "" else [if s[0] == from then to else s[0]] + Replace(s[1..], from, to)
  }

  /** The index of the first `sep` in `s`, or `|s|` when there is none. */
  function FirstIndex(sep: char, s: string): (i: nat)
    ensures i <= |s|
    ensures sep !in s[..i]
    ensures i < |s| ==> s[i] == sep
  {
    if |s| == 0 then 0 else if s[0] == sep then 0 else 1 + FirstIndex(sep, s[1..])
  }

  /** Joining the pieces with a character is replacing the separator by that character. */
  lemma {:induction false} ImplodeExplode(sep: char, glue: char, s: string)
    ensures Implode([glue], Explode(sep, s)) == Replace(s, sep, glue)
  {
    if |s| > 0 {
      ImplodeExplode(sep, glue, s[1..]);
      ImplodeExplodeStep(sep, glue, s);
    }
  }

  /** One step of `ImplodeExplode`: the first character, given the result for the rest. */
  lemma ImplodeExplodeStep(sep: char, glue: char, s: string)
    requires |s| > 0
    requires Implode([glue], Explode(sep, s[1..])) == Replace(s[1..], sep, glue)
    ensures Implode([glue], Explode(sep, s)) == Replace(s, sep, glue)
  {
    var rest := Explode(sep, s[1..]);
    var tail := Replace(s[1..], sep, glue);
    assert Replace(s, sep, glue) == [if s[0] == sep then glue else s[0]] + tail;
    if s[0] == sep {
      assert Explode(sep, s) == [""] + rest;
      SeparatorStep(glue, rest, tail);
    } else {
      assert Explode(sep, s) == [[s[0]] + rest[0]] + rest[1..];
      ImplodeFront([glue], s[0], rest);
    }
  }

  /** A leading separator contributes an empty first piece, so the joined string gains the glue. */
  lemma SeparatorStep(glue: char, rest: seq<string>, tail: string)
    requires |rest| >= 1 && Implode([glue], rest) == tail
    ensures Implode([glue], [""] + rest) == [glue] + tail
  {
    ImplodeCons([glue], "", rest);
    EmptyPrefix([glue] + tail);
  }

  /** The empty string is a left unit of concatenation. */
  lemma EmptyPrefix(t: string)
    ensures "" + t == t
  {
  }

  /** Imploding a piece followed by at least one more. */
  lemma ImplodeCons(glue: string, first: string, more: seq<string>)
    requires |more| >= 1
    ensures Implode(glue, [first] + more) == first + glue + Implode(glue, more)
  {
    assert ([first] + more)[1..] == more;
  }

  /** Prefixing the first piece with a character prefixes the joined string with it. */
  lemma ImplodeFront(glue: string, c: char, parts: seq<string>)
    requires |parts| >= 1
    ensures Implode(glue, [[c] + parts[0]] + parts[1..]) == [c] + Implode(glue, parts)
  {
    if |parts| > 1 {
      ImplodeCons(glue, [c] + parts[0], parts[1..]);
    }
  }

  /** Exploding and imploding with the same separator gives back the string. */
  lemma ExplodeRoundTrip(sep: char, s: string)
    ensures Implode([sep], Explode(sep, s)) == s
  {
    ImplodeExplode(sep, sep, s);
    assert Replace(s, sep, sep) == s;
  }

  /** The first piece is the text before the first separator. */
  lemma {:induction false} ExplodeHead(sep: char, s: string)
    ensures Explode(sep, s)[0] == s[..FirstIndex(sep, s)]
  {
    if |s| > 0 && s[0] != sep {
      ExplodeHead(sep, s[1..]);
    }
  }

  /**
   * For a namespace free of the separator, the first piece is the namespace exactly
   * when the string is the namespace or starts with the namespace and the separator.
   */
  lemma FirstPieceIs(sep: char, s: string, namespace: string)
    requires sep !in namespace
    ensures Explode(sep, s)[0] == namespace <==>
      s == namespace || (|s| > |namespace| && s[..|namespace|] == namespace && s[|namespace|] == sep)
  {
    ExplodeHead(sep, s);
    var i := FirstIndex(sep, s);
    if s == namespace {
      assert sep !in s;
      NoSeparatorIndex(sep, s);
    } else if |s| > |namespace| && s[..|namespace|] == namespace && s[|namespace|] == sep {
      FirstIndexAt(sep, s, |namespace|);
    } else if s[..i] == namespace {
      assert false;
    }
  }

  /** Without a separator the first index is the length. */
  lemma {:induction false} NoSeparatorIndex(sep: char, s: string)
    requires sep !in s
    ensures FirstIndex(sep, s) == |s|
  {
    if |s| > 0 {
      assert s[0] != sep && sep !in s[1..];
      NoSeparatorIndex(sep, s[1..]);
    }
  }

  /** A separator at `k` with none before it is the first one. */
  lemma {:induction false} FirstIndexAt(sep: char, s: string, k: nat)
    requires k < |s| && s[k] == sep && sep !in s[..k]
    ensures FirstIndex(sep, s) == k
  {
    if k > 0 {
      assert s[0] == s[..k][0];
      assert s[1..][..k - 1] == s[..k][1..];
      FirstIndexAt(sep, s[1..], k - 1);
    }
  }

  /** The namespaces the loader handles, each with its sub-directory. */
  const LoaderMap: seq<(string, string)> := [("GuzzleHttp", "GuzzleHttp")]

  /**
   * The path segments of `classname` for `namespace`: the pieces between underscores
   * when the first of them is the namespace, else the pieces between backslashes when
   * the first of those is; none otherwise.
   */
  function Segments(classname: string, namespace: string): (r: Option<seq<string>>)
    ensures r.Some? ==> |r.value| >= 1 && r.value[0] == namespace
    ensures r.Some? ==> r.value == Explode('_', classname) || r.value == Explode('\\', classname)
    ensures r.None? <==> Explode('_', classname)[0] != namespace && Explode('\\', classname)[0] != namespace
  {
    var byUnderscore := Explode('_', classname);
    if byUnderscore[0] == namespace then Some(byUnderscore)
    else
      var byBackslash := Explode('\\', classname);
      if byBackslash[0] == namespace then Some(byBackslash) else None
  }

  /** The file that would hold `classname`, below directory `dir`, when it is in `namespace`. */
  function ClassFile(dir: string, classname: string, namespace: string): (r: Option<string>)
    ensures r.None? <==> Explode('_', classname)[0] != namespace && Explode('\\', classname)[0] != namespace
    ensures r.Some? ==> StartsWith(r.value, dir + "/" + namespace) && EndsWith(r.value, ".php")
  {
    match Segments(classname, namespace)
    case None => None
    case Some(segments) => Some(dir + "/" + Implode("/", segments) + ".php")
  }

  /** The files loaded for `classname` by the map entries `entries`, in order. */
  function RequiredFiles(dir: string, classname: string, existing: set<string>, entries: seq<(string, string)>): (r: seq<string>)
    ensures forall p :: p in r ==> p in existing
  {
    if |entries| == 0 then []
    else
      var earlier := RequiredFiles(dir, classname, existing, entries[..|entries| - 1]);
      match ClassFile(dir, classname, entries[|entries| - 1].0)
      case Some(path) => if path in existing then earlier + [path] else earlier
      case None => earlier
  }

  /**
   * The autoloader: for each map entry, computes the candidate file and loads it when
   * it exists. `existing` stands for `file_exists`; the result lists the files required.
   */
  method LoadClass(dir: string, classname: string, existing: set<string>) returns (required: seq<string>)
    ensures required == RequiredFiles(dir, classname, existing, LoaderMap)
    ensures forall p :: p in required ==> p in existing
    ensures required == match ClassFile(dir, classname, "GuzzleHttp")
      case Some(path) => if path in existing then [path] else []
      case None => []
  {
    required := [];
    var i := 0;
    while i < |LoaderMap|
      invariant 0 <= i <= |LoaderMap|
      invariant required == RequiredFiles(dir, classname, existing, LoaderMap[..i])
    {
      var (namespace, subpath) := LoaderMap[i];
      var classpath := Explode('_', classname);
      if classpath[0] != namespace {
        classpath := Explode('\\', classname);
        if classpath[0] != namespace {
          assert LoaderMap[..i + 1][..i] == LoaderMap[..i];
          i := i + 1;
          continue;
        }
      }
      subpath := dir + "/";
      var filepath := subpath + Implode("/", classpath) + ".php";
      assert LoaderMap[..i + 1][..i] == LoaderMap[..i];
      if filepath in existing {
        required := required + [filepath];
      }
      i := i + 1;
    }
    assert LoaderMap[..1] == LoaderMap;
    assert LoaderMap[..1][..0] == [];
  }

  /** A class name split on underscores maps to the name with each underscore made a slash. */
  lemma UnderscorePath(dir: string, classname: string)
    requires Explode('_', classname)[0] == "GuzzleHttp"
    ensures ClassFile(dir, classname, "GuzzleHttp") == Some(dir + "/" + Replace(classname, '_', '/') + ".php")
  {
    ImplodeExplode('_', '/', classname);
  }

  /** Otherwise a name split on backslashes maps to the name with each backslash made a slash. */
  lemma BackslashPath(dir: string, classname: string)
    requires Explode('_', classname)[0] != "GuzzleHttp" && Explode('\\', classname)[0] == "GuzzleHttp"
    ensures ClassFile(dir, classname, "GuzzleHttp") == Some(dir + "/" + Replace(classname, '\\', '/') + ".php")
  {
    ImplodeExplode('\\', '/', classname);
  }

  /** A class is mapped exactly when its name is, or starts with, the namespace and a separator. */
  lemma MappedNames(dir: string, classname: string)
    ensures ClassFile(dir, classname, "GuzzleHttp").Some? <==>
      classname == "GuzzleHttp" || StartsWith(classname, "GuzzleHttp_") || StartsWith(classname, "GuzzleHttp\\")
  {
    FirstPieceIs('_', classname, "GuzzleHttp");
    FirstPieceIs('\\', classname, "GuzzleHttp");
    var ns := "GuzzleHttp";
    assert |classname| > |ns| && classname[..|ns|] == ns && classname[|ns|] == '_'
      <==> StartsWith(classname, "GuzzleHttp_") by {
      if |classname| > |ns| { assert classname[..|ns| + 1] == classname[..|ns|] + [classname[|ns|]]; }
    }
    assert |classname| > |ns| && classname[..|ns|] == ns && classname[|ns|] == '\\'
      <==> StartsWith(classname, "GuzzleHttp\\") by {
      if |classname| > |ns| { assert classname[..|ns| + 1] == classname[..|ns|] + [classname[|ns|]]; }
    }
  }

  /** `s` begins with `prefix`. */
  predicate StartsWith(s: string, prefix: string) {
    |prefix| <= |s| && s[..|prefix|] == prefix
  }

  /** `s` ends with `suffix`. */
  predicate EndsWith(s: string, suffix: string) {
    |suffix| <= |s| && s[|s| - |suffix|..] == suffix
  }
}
