/**
  HTTP requests as the signer and the verifier see them, and the string that is signed
  (internal/httpsig/signing_string.go).
 */
module SigningString {
  import opened Wrappers
  import opened Text

  /** Header values by canonical key. */
  type Headers = map<string, seq<string>>

  /** `path` is the escaped path, `query` the raw query, `host` the Host of the request line's connection. */
  datatype Request = Request(verb: string, path: string, query: string, urlHost: string, host: string, headers: Headers)

  predicate IsTokenChar(c: char) {
    '0' <= c <= '9' || 'a' <= c <= 'z' || 'A' <= c <= 'Z' || c in "!#$%&'*+-.^_`|~"
  }

  predicate IsToken(s: string) {
    forall c | c in s :: IsTokenChar(c)
  }

  /** http.CanonicalHeaderKey: anything but a token is left as it is. */
  function CanonicalHeaderKey(s: string): (r: string)
    ensures |r| == |s|
  {
    if IsToken(s) then
      seq(|s|, i requires 0 <= i < |s| => if i == 0 || s[i - 1] == '-' then UpperChar(s[i]) else LowerChar(s[i]))
    else s
  }

  function Values(h: Headers, name: string): seq<string> {
    if CanonicalHeaderKey(name) in h then h[CanonicalHeaderKey(name)] else []
  }

  function Get(h: Headers, name: string): string {
    if Values(h, name) == [] then "" else Values(h, name)[0]
  }

  function Set(h: Headers, name: string, value: string): Headers {
    h[CanonicalHeaderKey(name) := [value]]
  }

  const REQUEST_TARGET := "(request-target)"

  function Path(r: Request): string {
    if r.path == "" then "/" else r.path
  }

  function QueryPart(r: Request): string {
    if r.query != "" then "?" + r.query else ""
  }

  function Target(r: Request): string {
    ToLower(r.verb) + " " + (Path(r) + QueryPart(r))
  }

  /** The value a header contributes; the Host header may have been moved out of the header map. */
  function HeaderValue(r: Request, lower: string): Option<string> {
    var vals := Values(r.headers, lower);
    if vals != [] then Some(Join(vals, ", "))
    else if lower == "host" && r.host != "" then Some(r.host)
    else None
  }

  /** One entry of the signed list: the lower-cased name and what it stands for. */
  function Covered(r: Request, name: string): Option<(string, string)> {
    var lower := ToLower(TrimSpace(name));
    if lower == REQUEST_TARGET then Some((lower, Target(r)))
    else
      match HeaderValue(r, lower)
      case None => None
      case Some(v) => Some((lower, v))
  }

  function Line(entry: (string, string)): string {
    entry.0 + (": " + entry.1)
  }

  function Lines(entries: seq<(string, string)>): (r: seq<string>) {
    seq(|entries|, i requires 0 <= i < |entries| => Line(entries[i]))
  }

  /** Everything the names cover, in order; an error when one of them covers nothing. */
  function CoveredAll(r: Request, names: seq<string>): Result<seq<(string, string)>> {
    if forall i | 0 <= i < |names| :: Covered(r, names[i]).Some? then
      Ok(seq(|names|, i requires 0 <= i < |names| => Covered(r, names[i]).value))
    else Err
  }

  function Signable(r: Request, names: seq<string>): Result<string> {
    match CoveredAll(r, names)
    case Err => Err
    case Ok(entries) => Ok(Join(Lines(entries), "\n"))
  }

  method LineFor(r: Request, name: string) returns (line: Result<string>)
    ensures line == match Covered(r, name) case None => Err case Some(entry) => Ok(Line(entry))
  {
    hide CanonicalHeaderKey, Join, Target, ToLower, TrimSpace;
    var lower := ToLower(TrimSpace(name));
    if lower == REQUEST_TARGET {
      return Ok(REQUEST_TARGET + (": " + Target(r)));
    }
    var vals := Values(r.headers, lower);
    if |vals| == 0 && lower == "host" && r.host != "" {
      JoinOne(r.host, ", ");
      vals := [r.host];
    }
    if |vals| == 0 {
      return Err;
    }
    return Ok(lower + (": " + Join(vals, ", ")));
  }

  method BuildSigningString(r: Request, names: seq<string>) returns (s: Result<string>)
    ensures s == Signable(r, names)
  {
    hide Covered, Join, Line;
    var lines: seq<string> := [];
    for k := 0 to |names|
      invariant |lines| == k
      invariant forall i | 0 <= i < k :: Covered(r, names[i]).Some? && lines[i] == Line(Covered(r, names[i]).value)
    {
      var line := LineFor(r, names[k]);
      if line.Err? {
        assert Covered(r, names[k]).None?;
        return Err;
      }
      lines := lines + [line.value];
    }
    assert lines == Lines(CoveredAll(r, names).value);
    return Ok(Join(lines, "\n"));
  }

  lemma JoinOne(s: string, sep: string)
    ensures Join([s], sep) == s
  {
  }

  // ----- Different lists never give the same string -----

  predicate Readable(entry: (string, string)) {
    ':' !in entry.0 && '\n' !in entry.0 && '\n' !in entry.1
  }

  /** Two splits of a text at a character that neither front contains are the same split. */
  lemma SplitIsUnique(a: string, b: string, c: string, d: string, sep: char)
    requires sep !in a && sep !in c
    requires b != "" && b[0] == sep && d != "" && d[0] == sep
    requires a + b == c + d
    ensures a == c && b == d
  {
    IndexAfter(a, sep, b);
    IndexAfter(c, sep, d);
    assert a == (a + b)[..|a|] && c == (c + d)[..|c|];
    assert b == (a + b)[|a|..] && d == (c + d)[|c|..];
  }

  lemma LineIsUnique(p: (string, string), q: (string, string))
    requires Readable(p) && Readable(q) && Line(p) == Line(q)
    ensures p == q
  {
    SplitIsUnique(p.0, ": " + p.1, q.0, ": " + q.1, ':');
    assert p.1 == (": " + p.1)[2..];
    assert q.1 == (": " + q.1)[2..];
  }

  lemma NoNewlineInLine(p: (string, string))
    requires Readable(p)
    ensures '\n' !in Line(p) && Line(p) != ""
  {
  }

  lemma {:induction false} JoinedLines(entries: seq<(string, string)>)
    requires entries != []
    ensures Join(Lines(entries), "\n") ==
              Line(entries[0]) + if |entries| == 1 then "" else "\n" + Join(Lines(entries[1..]), "\n")
  {
    if |entries| > 1 {
      var rest := Join(Lines(entries[1..]), "\n");
      assert Lines(entries)[1..] == Lines(entries[1..]);
      assert Line(entries[0]) + "\n" + rest == Line(entries[0]) + ("\n" + rest);
    } else {
      assert Line(entries[0]) + "" == Line(entries[0]);
    }
  }

  lemma {:induction false} SigningStringIsInjective(p: seq<(string, string)>, q: seq<(string, string)>)
    requires forall e | e in p :: Readable(e)
    requires forall e | e in q :: Readable(e)
    requires Join(Lines(p), "\n") == Join(Lines(q), "\n")
    ensures p == q
    decreases |p|
  {
    hide Join, Lines, Line, Readable;
    if p == [] || q == [] {
      JoinedLinesAreEmptyIffNone(p);
      JoinedLinesAreEmptyIffNone(q);
    } else {
      JoinedLines(p);
      JoinedLines(q);
      NoNewlineInLine(p[0]);
      NoNewlineInLine(q[0]);
      var p', q' := Join(Lines(p[1..]), "\n"), Join(Lines(q[1..]), "\n");
      FirstLines(Line(p[0]), |p| > 1, p', Line(q[0]), |q| > 1, q');
      LineIsUnique(p[0], q[0]);
      if |p| > 1 {
        SigningStringIsInjective(p[1..], q[1..]);
        assert p == [p[0]] + p[1..] && q == [q[0]] + q[1..];
      }
    }
  }

  lemma JoinedLinesAreEmptyIffNone(p: seq<(string, string)>)
    requires forall e | e in p :: Readable(e)
    ensures Join(Lines(p), "\n") == "" <==> p == []
  {
    if p != [] {
      JoinedLines(p);
      NoNewlineInLine(p[0]);
    }
  }

  /** Texts that agree agree on their first line, on whether there are more, and on the rest. */
  lemma FirstLines(a: string, more: bool, b: string, c: string, more': bool, d: string)
    requires '\n' !in a && '\n' !in c
    requires a + (if more then "\n" + b else "") == c + (if more' then "\n" + d else "")
    ensures a == c && more == more' && (more ==> b == d)
  {
    var x, y := if more then "\n" + b else "", if more' then "\n" + d else "";
    assert more ==> (a + x)[|a|] == '\n';
    assert more' ==> (c + y)[|c|] == '\n';
    if more {
      SplitIsUnique(a, x, c, y, '\n');
      assert b == x[1..] && d == y[1..];
    } else {
      assert a + x == a && c + y == c;
    }
  }

  // ----- What requests on the wire cover is readable -----

  /** What a server's HTTP parser lets through. */
  predicate WireOk(r: Request) {
    && (forall k | k in r.headers :: IsToken(k) && forall v | v in r.headers[k] :: '\n' !in v)
    && ' ' !in r.verb && '\n' !in r.verb && '?' !in r.path && '\n' !in r.path && '\n' !in r.query && '\n' !in r.host
  }

  lemma {:induction false} JoinHasNo(parts: seq<string>, sep: string, c: char)
    requires c !in sep && forall s | s in parts :: c !in s
    ensures c !in Join(parts, sep)
  {
    if |parts| > 1 {
      JoinHasNo(parts[1..], sep, c);
    }
  }

  lemma LowerHasNo(s: string, c: char)
    requires c !in s && !('a' <= c <= 'z')
    ensures c !in ToLower(s)
  {
  }

  lemma TargetHasNoNewline(r: Request)
    requires WireOk(r)
    ensures '\n' !in Target(r)
  {
    LowerHasNo(r.verb, '\n');
  }

  lemma HeaderValueIsReadable(r: Request, lower: string)
    requires WireOk(r) && HeaderValue(r, lower).Some?
    ensures Readable((lower, HeaderValue(r, lower).value))
  {
    hide Join;
    var key, vals := CanonicalHeaderKey(lower), Values(r.headers, lower);
    if vals != [] {
      assert IsToken(key) && vals == r.headers[key];
      assert IsToken(lower);
      JoinHasNo(vals, ", ", '\n');
    }
  }

  lemma CoveredIsReadable(r: Request, name: string)
    requires WireOk(r) && Covered(r, name).Some?
    ensures Readable(Covered(r, name).value)
  {
    hide Target, HeaderValue, ToLower, TrimSpace, WireOk;
    var lower := ToLower(TrimSpace(name));
    if lower == REQUEST_TARGET {
      TargetHasNoNewline(r);
    } else {
      HeaderValueIsReadable(r, lower);
    }
  }

  lemma PathAndQueryDetermine(r: Request, q: Request)
    requires WireOk(r) && WireOk(q) && Path(r) + QueryPart(r) == Path(q) + QueryPart(q)
    ensures Path(r) == Path(q) && r.query == q.query
  {
    var a, b := QueryPart(r), QueryPart(q);
    assert (Path(r) + a) + "?" == Path(r) + (a + "?") && (Path(q) + b) + "?" == Path(q) + (b + "?");
    SplitIsUnique(Path(r), a + "?", Path(q), b + "?", '?');
    assert a == (a + "?")[..|a|] && b == (b + "?")[..|b|];
    assert a != "" ==> r.query == a[1..];
    assert b != "" ==> q.query == b[1..];
  }

  lemma TargetDetermines(r: Request, q: Request)
    requires WireOk(r) && WireOk(q) && Target(r) == Target(q)
    ensures ToLower(r.verb) == ToLower(q.verb) && Path(r) == Path(q) && r.query == q.query
  {
    hide Path, QueryPart, ToLower;
    LowerHasNo(r.verb, ' ');
    LowerHasNo(q.verb, ' ');
    var a, b := Path(r) + QueryPart(r), Path(q) + QueryPart(q);
    assert ToLower(r.verb) + " " + a == ToLower(r.verb) + (" " + a);
    assert ToLower(q.verb) + " " + b == ToLower(q.verb) + (" " + b);
    SplitIsUnique(ToLower(r.verb), " " + a, ToLower(q.verb), " " + b, ' ');
    assert (" " + a)[1..] == a && (" " + b)[1..] == b;
    PathAndQueryDetermine(r, q);
  }
}
