/**
  The part of Express routing that src/express.ts relies on: a request path is
  cut into segments at '/', a route path such as "/sum/:i/:j" into literal
  segments and named parameters, and a route matches a request when the
  literals agree and every parameter captures one non-empty segment. As in
  Express's default routing, one trailing '/' on the request is ignored
  (non-strict routing), literal segments are compared without regard to the
  case of ASCII letters (case-insensitive routing), and only the path part of
  the URL, before any '?', takes part in matching.
 */
module RoutePaths {
  import opened Http

  /** The pieces of s between the '/' characters, in order, as `s.split('/')`. */
  function Split(s: string): (r: seq<string>)
    ensures |r| >= 1
  {
    if s == [] then [""]
    else
      var rest := Split(s[1..]);
      if s[0] == '/' then [""] + rest
      else [[s[0]] + rest[0]] + rest[1..]
  }

  /** The pieces glued back together with '/' between them, as `parts.join('/')`. */
  function Join(parts: seq<string>): string
    requires |parts| >= 1
    decreases |parts|
  {
    if |parts| == 1 then parts[0] else parts[0] + "/" + Join(parts[1..])
  }

  /** Splitting a string that starts with a slash-free piece keeps that piece
      at the front of the first segment. */
  lemma {:induction false} SplitAfterPiece(x: string, y: string)
    requires '/' !in x
    ensures Split(x + y) == [x + Split(y)[0]] + Split(y)[1..]
    decreases |x|
  {
    if x == [] {
      assert x + y == y && x + Split(y)[0] == Split(y)[0];
      assert Split(y) == [Split(y)[0]] + Split(y)[1..];
    } else {
      assert (x + y)[1..] == x[1..] + y;
      SplitAfterPiece(x[1..], y);
      assert [x[0]] + (x[1..] + Split(y)[0]) == x + Split(y)[0];
    }
  }

  /** Split undoes Join on slash-free pieces. */
  lemma {:induction false} SplitJoin(parts: seq<string>)
    requires |parts| >= 1
    requires forall k :: 0 <= k < |parts| ==> '/' !in parts[k]
    ensures Split(Join(parts)) == parts
    decreases |parts|
  {
    if |parts| == 1 {
      SplitAfterPiece(parts[0], "");
      assert parts[0] + "" == parts[0];
    } else {
      var tail := Join(parts[1..]);
      SplitJoin(parts[1..]);
      assert ("/" + tail)[1..] == tail;
      assert Split("/" + tail) == [""] + parts[1..];
      assert Join(parts) == parts[0] + ("/" + tail);
      SplitAfterPiece(parts[0], "/" + tail);
      assert parts[0] + "" == parts[0];
      assert [parts[0]] + parts[1..] == parts;
    }
  }

  /** Join undoes Split: no character of the path is lost or added. */
  lemma {:induction false} JoinSplit(s: string)
    ensures Join(Split(s)) == s
    decreases |s|
  {
    if s != [] {
      var rest := Split(s[1..]);
      JoinSplit(s[1..]);
      if s[0] == '/' {
        assert Split(s) == [""] + rest;
        assert ([""] + rest)[1..] == rest;
        assert s == "" + "/" + s[1..];
      } else {
        var r := Split(s);
        assert r == [[s[0]] + rest[0]] + rest[1..];
        if |rest| == 1 {
          assert s == [s[0]] + s[1..];
        } else {
          assert r[1..] == rest[1..];
          assert Join(rest) == rest[0] + "/" + Join(rest[1..]);
          assert s == [s[0]] + s[1..];
        }
      }
    }
  }

  /** A segment of a route path: fixed text, or a parameter written ":name". */
  datatype Segment = Literal(text: string) | Parameter(name: string)

  function CompileSegment(s: string): Segment {
    if |s| > 0 && s[0] == ':' then Parameter(s[1..]) else Literal(s)
  }

  /** The segments of a route path after its leading '/'. */
  function Compile(path: string): seq<Segment> {
    var parts := Split(path);
    seq(|parts| - 1, k requires 0 <= k < |parts| - 1 => CompileSegment(parts[k + 1]))
  }

  /** The segments of a request path after its leading '/'; None when the path
      does not start with '/'. */
  function PathSegments(url: string): (r: Option<seq<string>>)
    ensures r.Some? <==> url == "" || url[0] == '/'
    ensures r.Some? ==> [""] + r.value == Split(url)
  {
    var parts := Split(url);
    if parts[0] == "" then Some(parts[1..]) else None
  }

  /** For a path that starts with '/', the segments joined by '/' after a
      leading '/' give the path back. */
  lemma PathSegmentsJoin(url: string)
    requires |url| > 0 && url[0] == '/'
    ensures PathSegments(url).Some? && |PathSegments(url).value| >= 1
    ensures "/" + Join(PathSegments(url).value) == url
  {
    var parts := Split(url);
    assert parts == [""] + Split(url[1..]);
    JoinSplit(url);
    assert parts[1..] == Split(url[1..]);
  }

  /** The path part of a request URL, everything before the first '?': a prefix
      of the URL with no '?' in it, followed in the URL by a '?' or by nothing. */
  function PathOf(url: string): (p: string)
    ensures p <= url
    ensures '?' !in p
    ensures |p| < |url| ==> url[|p|] == '?'
    decreases |url|
  {
    if url == [] || url[0] == '?' then []
    else
      var rest := PathOf(url[1..]);
      assert [url[0]] + rest <= [url[0]] + url[1..];
      assert url == [url[0]] + url[1..];
      [url[0]] + rest
  }

  /** A URL without a query string is all path; with one, the path is what
      precedes its '?'. */
  lemma PathOfQuery(u: string, q: string)
    requires '?' !in u
    ensures PathOf(u) == u
    ensures PathOf(u + "?" + q) == u
  {
    var url := u + "?" + q;
    assert url[|u|] == '?';
    assert url[..|u|] == u;
  }

  /** The segments a request's URL is routed by. */
  function RequestSegments(url: string): Option<seq<string>> {
    PathSegments(PathOf(url))
  }

  /** ASCII lower-casing of one character. */
  function LowerChar(c: char): char {
    if 'A' <= c <= 'Z' then (c as int + 32) as char else c
  }

  /** The string with its ASCII letters lower-cased. */
  function Lower(s: string): (r: string)
    ensures |r| == |s|
    ensures forall k :: 0 <= k < |s| ==> r[k] == LowerChar(s[k])
  {
    seq(|s|, k requires 0 <= k < |s| => LowerChar(s[k]))
  }

  /** Two characters are the same letter up to ASCII case: equal, or one an
      upper-case ASCII letter and the other the letter 32 code points above it. */
  predicate SameIgnoringAsciiCase(a: char, b: char) {
    a == b ||
    ('A' <= a <= 'Z' && b as int == a as int + 32) ||
    ('A' <= b <= 'Z' && a as int == b as int + 32)
  }

  /** Lower-casing identifies two characters exactly when they differ at most
      in ASCII case. */
  lemma LowerCharEqualIff(a: char, b: char)
    ensures LowerChar(a) == LowerChar(b) <==> SameIgnoringAsciiCase(a, b)
  {
  }

  /** Two strings lower-case alike exactly when they have the same length and
      agree character by character up to ASCII case. */
  lemma LowerEqualIff(x: string, y: string)
    ensures Lower(x) == Lower(y) <==>
            |x| == |y| && forall k :: 0 <= k < |x| ==> SameIgnoringAsciiCase(x[k], y[k])
  {
    if |x| == |y| {
      forall k | 0 <= k < |x| {
        LowerCharEqualIff(x[k], y[k]);
      }
      if Lower(x) != Lower(y) {
        var k :| 0 <= k < |x| && Lower(x)[k] != Lower(y)[k];
        assert !SameIgnoringAsciiCase(x[k], y[k]);
      }
    }
  }

  /** A string with no upper-case ASCII letter is its own lower case, and
      lower-casing twice is lower-casing once. */
  lemma LowerFixes(s: string)
    ensures (forall k :: 0 <= k < |s| ==> !('A' <= s[k] <= 'Z')) ==> Lower(s) == s
    ensures Lower(Lower(s)) == Lower(s)
  {
  }

  /** The parameters captured when the segments match the pattern one for one. */
  function MatchExact(pattern: seq<Segment>, segs: seq<string>): (r: Option<map<string, string>>)
    ensures r.Some? ==> |segs| == |pattern|
    decreases |pattern|
  {
    if |pattern| == 0 then
      if |segs| == 0 then Some(map[]) else None
    else if |segs| == 0 then None
    else
      match pattern[0]
      case Literal(t) =>
        if Lower(segs[0]) == Lower(t) then MatchExact(pattern[1..], segs[1..]) else None
      case Parameter(n) =>
        if segs[0] == "" then None
        else
          match MatchExact(pattern[1..], segs[1..])
          case None => None
          case Some(m) => Some(map[n := segs[0]] + m)
  }

  /** Whether one request segment fits one pattern segment: a literal takes the
      same text up to ASCII case, a parameter any non-empty text. */
  predicate Accepts(seg: Segment, s: string) {
    match seg
    case Literal(t) => Lower(s) == Lower(t)
    case Parameter(_) => s != ""
  }

  /** Pattern segment k is a parameter whose name no later segment reuses. */
  predicate LastParameter(pattern: seq<Segment>, k: int)
    requires 0 <= k < |pattern|
  {
    pattern[k].Parameter? && forall l :: k < l < |pattern| ==> pattern[l] != pattern[k]
  }

  /** An exact match succeeds precisely when the segments pair off one for one
      with the pattern and each fits its pattern segment. */
  lemma {:induction false} MatchExactAccepts(pattern: seq<Segment>, segs: seq<string>)
    ensures MatchExact(pattern, segs).Some? <==>
            |segs| == |pattern| && forall k :: 0 <= k < |pattern| ==> Accepts(pattern[k], segs[k])
    decreases |pattern|
  {
    if |pattern| > 0 && |segs| > 0 {
      MatchExactAccepts(pattern[1..], segs[1..]);
      if |segs| == |pattern| && forall k :: 0 <= k < |pattern| ==> Accepts(pattern[k], segs[k]) {
        forall k | 0 <= k < |pattern[1..]| ensures Accepts(pattern[1..][k], segs[1..][k]) {
          assert Accepts(pattern[k + 1], segs[k + 1]);
        }
        assert Accepts(pattern[0], segs[0]);
      }
      if MatchExact(pattern, segs).Some? {
        assert Accepts(pattern[0], segs[0]);
        forall k | 0 <= k < |pattern| ensures Accepts(pattern[k], segs[k]) {
          if k > 0 {
            assert Accepts(pattern[1..][k - 1], segs[1..][k - 1]);
          }
        }
      }
    }
  }

  /** A successful exact match captures exactly the pattern's parameter names,
      each bound to the segment at its last occurrence in the pattern. */
  lemma {:induction false} MatchExactCaptures(pattern: seq<Segment>, segs: seq<string>)
    requires MatchExact(pattern, segs).Some?
    ensures forall n :: n in MatchExact(pattern, segs).value <==>
                        exists k :: 0 <= k < |pattern| && pattern[k] == Parameter(n)
    ensures forall k :: 0 <= k < |pattern| && LastParameter(pattern, k) ==>
                        MatchExact(pattern, segs).value[pattern[k].name] == segs[k]
    decreases |pattern|
  {
    var m := MatchExact(pattern, segs).value;
    if |pattern| > 0 {
      var tail := pattern[1..];
      MatchExactCaptures(tail, segs[1..]);
      var mt := MatchExact(tail, segs[1..]).value;
      forall n ensures n in m <==> exists k :: 0 <= k < |pattern| && pattern[k] == Parameter(n) {
        if n in mt {
          var k :| 0 <= k < |tail| && tail[k] == Parameter(n);
          assert pattern[k + 1] == Parameter(n);
        }
        if exists k :: 0 <= k < |pattern| && pattern[k] == Parameter(n) {
          var k :| 0 <= k < |pattern| && pattern[k] == Parameter(n);
          if k > 0 {
            assert tail[k - 1] == Parameter(n);
          }
        }
      }
      forall k | 0 <= k < |pattern| && LastParameter(pattern, k)
        ensures m[pattern[k].name] == segs[k]
      {
        if k > 0 {
          assert LastParameter(tail, k - 1) by {
            forall l | k - 1 < l < |tail| ensures tail[l] != tail[k - 1] {
              assert tail[l] == pattern[l + 1];
            }
          }
          assert tail[k - 1] == pattern[k];
        } else {
          assert !exists j :: 0 <= j < |tail| && tail[j] == pattern[0] by {
            forall j | 0 <= j < |tail| ensures tail[j] != pattern[0] {
              assert tail[j] == pattern[j + 1];
            }
          }
        }
      }
    }
  }

  /** Exact match, or a match once one trailing empty segment (a trailing '/')
      is dropped. */
  function Match(pattern: seq<Segment>, segs: seq<string>): Option<map<string, string>> {
    if |segs| > 0 && segs[|segs| - 1] == "" && MatchExact(pattern, segs[..|segs| - 1]).Some? then
      MatchExact(pattern, segs[..|segs| - 1])
    else
      MatchExact(pattern, segs)
  }

  /** Whether a compiled route path matches the path of the request URL, and
      what it captures. */
  function RouteMatch(pattern: seq<Segment>, url: string): Option<map<string, string>> {
    match RequestSegments(url)
    case None => None
    case Some(segs) => Match(pattern, segs)
  }
}
