/** The Signature header: its parser (internal/httpsig/parse.go) and the texts it reads back. */
module SignatureHeader {
  import opened Wrappers
  import opened Text

  type Bindings = map<string, string>

  // ----- What the parser computes, on the text still to be read -----

  predicate IsSeparator(c: char) {
    c == ' ' || c == ',' || c == '\t'
  }

  function SkipSeparators(s: string): (r: string)
    ensures |r| <= |s|
  {
    if s != "" && IsSeparator(s[0]) then SkipSeparators(s[1..]) else s
  }

  /** The value up to the closing quote, and the text after it; a backslash takes the next character as it is. */
  function Quoted(done: string, s: string): (r: Result<(string, string)>)
    ensures r.Ok? ==> |r.value.1| < |s|
    decreases |s|
  {
    if s == "" then Err
    else if s[0] == '\\' && |s| > 1 then Quoted(done + [s[1]], s[2..])
    else if s[0] == '"' then Ok((done, s[1..]))
    else Quoted(done + [s[0]], s[1..])
  }

  function Value(s: string): (r: Result<(string, string)>)
    requires s != ""
    ensures r.Ok? ==> |r.value.1| <= |s|
  {
    if s[0] == '"' then Quoted("", s[1..])
    else Ok((TrimSpace(s[..IndexOf(s, ',')]), s[IndexOf(s, ',')..]))
  }

  /** One `key=value` at the front of `t`: the key as written, the value, the text after it. */
  function OneParam(t: string): (r: Result<(string, string, string)>)
    ensures r.Ok? ==> |r.value.2| < |t|
  {
    var n := IndexOf(t, '=');
    if |t| <= n + 1 then Err
    else
      match Value(t[n + 1..])
      case Err => Err
      case Ok((value, rest)) => Ok((TrimSpace(t[..n]), value, rest))
  }

  function Params(s: string, found: Bindings): Result<Bindings>
    decreases |s|
  {
    var t := SkipSeparators(s);
    if t == "" then Ok(found)
    else
      match OneParam(t)
      case Err => Err
      case Ok((key, value, rest)) => Params(rest, found[ToLower(key) := value])
  }

  function Parse(raw: string): Result<Bindings> {
    match Params(TrimSpace(raw), map[])
    case Err => Err
    case Ok(found) => if found == map[] then Err else Ok(found)
  }

  // ----- The parser -----

  method SkipTo(raw: string, from: nat, c: char) returns (j: nat)
    requires from <= |raw|
    ensures from <= j <= |raw| && j == from + IndexOf(raw[from..], c)
  {
    j := from;
    while j < |raw| && raw[j] != c
      invariant from <= j <= |raw|
      invariant from + IndexOf(raw[from..], c) == j + IndexOf(raw[j..], c)
    {
      assert raw[j..][1..] == raw[j + 1..];
      j := j + 1;
    }
  }

  method QuotedValue(raw: string, from: nat) returns (closed: bool, value: string, i: nat)
    requires from <= |raw|
    ensures from <= i <= |raw|
    ensures Quoted("", raw[from..]) == if closed then Ok((value, raw[i..])) else Err
    ensures closed ==> from < i
  {
    closed, value, i := false, "", from;
    while i < |raw|
      invariant from <= i <= |raw|
      invariant Quoted("", raw[from..]) == Quoted(value, raw[i..])
      decreases |raw| - i
    {
      assert raw[i..][1..] == raw[i + 1..];
      if raw[i] == '\\' && i + 1 < |raw| {
        assert raw[i..][2..] == raw[i + 2..];
        i := i + 1;
        value := value + [raw[i]];
        i := i + 1;
      } else if raw[i] == '"' {
        i := i + 1;
        closed := true;
        return;
      } else {
        value := value + [raw[i]];
        i := i + 1;
      }
    }
  }

  method ReadValue(raw: string, from: nat) returns (ok: bool, value: string, i: nat)
    requires from < |raw|
    ensures from <= i <= |raw|
    ensures Value(raw[from..]) == if ok then Ok((value, raw[i..])) else Err
  {
    hide TrimSpace, Quoted, IndexOf;
    if raw[from] == '"' {
      assert raw[from..][1..] == raw[from + 1..];
      ok, value, i := QuotedValue(raw, from + 1);
    } else {
      i := SkipTo(raw, from, ',');
      assert raw[from..][..i - from] == raw[from..i];
      assert raw[from..][i - from..] == raw[i..];
      ok, value := true, TrimSpace(raw[from..i]);
    }
  }

  method ReadParam(raw: string, from: nat) returns (ok: bool, key: string, value: string, i: nat)
    requires from <= |raw|
    ensures ok ==> from < i <= |raw|
    ensures OneParam(raw[from..]) == if ok then Ok((key, value, raw[i..])) else Err
  {
    hide TrimSpace, Value, IndexOf;
    var j := SkipTo(raw, from, '=');
    i := j + 1;
    if i >= |raw| {
      return false, "", "", i;
    }
    assert raw[from..][..j - from] == raw[from..j];
    assert raw[from..][j - from + 1..] == raw[i..];
    key := TrimSpace(raw[from..j]);
    ok, value, i := ReadValue(raw, i);
  }

  method SkipSeparatorsFrom(raw: string, from: nat) returns (i: nat)
    requires from <= |raw|
    ensures from <= i <= |raw| && SkipSeparators(raw[from..]) == raw[i..]
  {
    i := from;
    while i < |raw| && IsSeparator(raw[i])
      invariant from <= i <= |raw|
      invariant SkipSeparators(raw[from..]) == SkipSeparators(raw[i..])
    {
      assert raw[i..][1..] == raw[i + 1..];
      i := i + 1;
    }
  }

  method ParseSignatureHeader(text: string) returns (r: Result<Bindings>)
    ensures r == Parse(text)
  {
    hide SkipSeparators, OneParam, TrimSpace;
    var out: Bindings := map[];
    var i := 0;
    var raw := TrimSpace(text);
    assert raw[0..] == raw;
    while i < |raw|
      invariant 0 <= i <= |raw|
      invariant Params(raw, map[]) == Params(raw[i..], out)
      decreases |raw| - i
    {
      ghost var start := i;
      i := SkipSeparatorsFrom(raw, i);
      if i >= |raw| {
        break;
      }
      var ok, key, value;
      ok, key, value, i := ReadParam(raw, i);
      if !ok {
        return Err;
      }
      out := out[ToLower(key) := value];
    }
    if |out| == 0 {
      return Err;
    }
    return Ok(out);
  }

  lemma BlankDoesNotParse()
    ensures Parse("").Err?
  {
    assert TrimSpace("") == "";
    assert SkipSeparators("") == "";
  }

  // ----- The texts it reads back -----

  /** `lead` is the separators before the parameter. */
  datatype Param = Param(lead: string, key: string, value: string, bare: bool)

  predicate Trimmed(s: string) {
    s != "" ==> !IsSpace(s[0]) && !IsSpace(s[|s| - 1])
  }

  /** A key has no `=` and no separator in front; an unquoted value is not empty and ends before a comma. */
  predicate WellFormed(p: Param) {
    && (forall c | c in p.lead :: c in {' ', ',', '\t'})
    && '=' !in p.key && Trimmed(p.key) && (p.key != "" ==> p.key[0] != ',')
    && (p.bare ==> p.value != "" && Trimmed(p.value) && ',' !in p.value && p.value[0] != '"')
  }

  /** Only a comma ends an unquoted value. */
  predicate MayFollow(p: Param, next: Param) {
    p.bare ==> next.lead != "" && next.lead[0] == ','
  }

  predicate Joined(params: seq<Param>) {
    && (forall p | p in params :: WellFormed(p))
    && (forall i | 0 <= i < |params| - 1 :: MayFollow(params[i], params[i + 1]))
  }

  /** Backslashes before quotes and backslashes. */
  function Escaped(s: string): string {
    if s == "" then ""
    else (if s[0] == '"' || s[0] == '\\' then ['\\', s[0]] else [s[0]]) + Escaped(s[1..])
  }

  function PrintValue(p: Param): string {
    if p.bare then p.value else "\"" + Escaped(p.value) + "\""
  }

  function PrintParam(p: Param): string {
    p.lead + p.key + "=" + PrintValue(p)
  }

  function Print(params: seq<Param>): string {
    if params == [] then "" else PrintParam(params[0]) + Print(params[1..])
  }

  /** Later bindings of a key win; keys are case-insensitive. */
  function Bound(params: seq<Param>, found: Bindings): Bindings {
    if params == [] then found else Bound(params[1..], found[ToLower(params[0].key) := params[0].value])
  }

  lemma QuotedTakesOne(done: string, c: char, tail: string)
    ensures Quoted(done, ['\\', c] + tail) == Quoted(done + [c], tail)
    ensures c != '"' && c != '\\' ==> Quoted(done, [c] + tail) == Quoted(done + [c], tail)
  {
    assert (['\\', c] + tail)[2..] == tail;
    assert ([c] + tail)[1..] == tail;
  }

  lemma {:induction false} EscapedReadsBack(done: string, value: string, rest: string)
    ensures Quoted(done, Escaped(value) + ("\"" + rest)) == Ok((done + value, rest))
    decreases |value|
  {
    if value == "" {
      assert Escaped(value) + ("\"" + rest) == "\"" + rest;
      assert ("\"" + rest)[1..] == rest;
      assert done + value == done;
    } else {
      hide Quoted;
      var tail := Escaped(value[1..]) + ("\"" + rest);
      var head := if value[0] == '"' || value[0] == '\\' then ['\\', value[0]] else [value[0]];
      assert Escaped(value) + ("\"" + rest) == head + tail;
      QuotedTakesOne(done, value[0], tail);
      EscapedReadsBack(done + [value[0]], value[1..], rest);
      assert done + [value[0]] + value[1..] == done + value;
    }
  }

  lemma {:induction false} SkipsTheLead(lead: string, s: string)
    requires forall c | c in lead :: IsSeparator(c)
    requires s != "" && !IsSeparator(s[0])
    ensures SkipSeparators(lead + s) == s
  {
    if lead == "" {
      assert lead + s == s;
    } else {
      assert (lead + s)[1..] == lead[1..] + s;
      SkipsTheLead(lead[1..], s);
    }
  }

  lemma ValueReadsBack(p: Param, rest: string)
    requires WellFormed(p)
    requires p.bare && rest != "" ==> rest[0] == ','
    ensures Value(PrintValue(p) + rest) == Ok((p.value, rest))
  {
    var text := PrintValue(p) + rest;
    if p.bare {
      IndexAfter(p.value, ',', rest);
      assert text[..|p.value|] == p.value && text[|p.value|..] == rest;
    } else {
      assert text[1..] == Escaped(p.value) + ("\"" + rest);
      EscapedReadsBack("", p.value, rest);
      assert "" + p.value == p.value;
    }
  }

  lemma KeyReadsBack(key: string, v: string)
    requires '=' !in key
    ensures var t := key + "=" + v;
            IndexOf(t, '=') == |key| && t[..|key|] == key && t[|key| + 1..] == v
  {
    assert key + "=" + v == key + ("=" + v);
    IndexAfter(key, '=', "=" + v);
  }

  lemma PrintedValueEndsInInk(p: Param)
    requires WellFormed(p)
    ensures PrintValue(p) != "" && !IsSpace(PrintValue(p)[|PrintValue(p)| - 1])
  {
  }

  lemma TrimmedStays(s: string)
    requires Trimmed(s)
    ensures TrimSpace(s) == s
  {
  }

  lemma OneParamReadsBack(p: Param, rest: string)
    requires WellFormed(p)
    requires p.bare && rest != "" ==> rest[0] == ','
    ensures OneParam(p.key + "=" + (PrintValue(p) + rest)) == Ok((p.key, p.value, rest))
  {
    hide Value, PrintValue, IndexOf, TrimSpace;
    KeyReadsBack(p.key, PrintValue(p) + rest);
    PrintedValueEndsInInk(p);
    TrimmedStays(p.key);
    ValueReadsBack(p, rest);
  }

  lemma ParamReadsBack(p: Param, rest: string, found: Bindings)
    requires WellFormed(p)
    requires p.bare && rest != "" ==> rest[0] == ','
    ensures Params(PrintParam(p) + rest, found) == Params(rest, found[ToLower(p.key) := p.value])
  {
    hide OneParam, PrintValue;
    var t := p.key + "=" + (PrintValue(p) + rest);
    assert !IsSeparator(t[0]);
    assert PrintParam(p) + rest == p.lead + t;
    SkipsTheLead(p.lead, t);
    OneParamReadsBack(p, rest);
  }

  lemma {:induction false} ParamsReadBack(params: seq<Param>, found: Bindings)
    requires Joined(params)
    ensures Params(Print(params), found) == Ok(Bound(params, found))
    decreases |params|
  {
    hide WellFormed, PrintValue;
    if params != [] {
      var rest := Print(params[1..]);
      if |params| > 1 {
        assert MayFollow(params[0], params[1]) && rest == PrintParam(params[1]) + Print(params[1..][1..]);
      }
      ParamReadsBack(params[0], rest, found);
      forall i | 0 <= i < |params[1..]| - 1
        ensures MayFollow(params[1..][i], params[1..][i + 1])
      {
        assert MayFollow(params[i + 1], params[i + 2]);
      }
      ParamsReadBack(params[1..], found[ToLower(params[0].key) := params[0].value]);
    }
  }

  lemma {:induction false} PrintEndsInInk(params: seq<Param>)
    requires params != [] && forall p | p in params :: WellFormed(p)
    ensures Print(params) != "" && !IsSpace(Print(params)[|Print(params)| - 1])
    decreases |params|
  {
    hide PrintValue;
    PrintedValueEndsInInk(params[0]);
    if |params| > 1 {
      PrintEndsInInk(params[1..]);
    }
  }

  lemma {:induction false} BoundIsNotEmpty(params: seq<Param>, found: Bindings)
    requires params != [] || found != map[]
    ensures Bound(params, found) != map[]
    decreases |params|
  {
    if params != [] {
      var more := found[ToLower(params[0].key) := params[0].value];
      assert ToLower(params[0].key) in more;
      BoundIsNotEmpty(params[1..], more);
    }
  }

  /**
    The parser undoes the printer: any list of well-formed parameters, quoted or not and with
    any separators between them, is read back in full; the last binding of a key wins.
   */
  lemma ParseUndoesPrint(params: seq<Param>)
    requires params != [] && Joined(params) && params[0].lead == ""
    ensures Parse(Print(params)) == Ok(Bound(params, map[]))
  {
    hide Params, PrintValue;
    var text := Print(params);
    assert !IsSpace(text[0]) by {
      var p := params[0];
      assert WellFormed(p) && text[0] == (p.key + "=")[0];
    }
    PrintEndsInInk(params);
    assert TrimSpace(text) == text;
    ParamsReadBack(params, map[]);
    BoundIsNotEmpty(params, map[]);
  }

  // ----- The printer of SignPost and SignGet does not escape -----

  predicate Plain(s: string) {
    '"' !in s && '\\' !in s
  }

  lemma {:induction false} QuotedShrinks(done: string, s: string)
    requires Quoted(done, s).Ok?
    ensures |Quoted(done, s).value.0| + |Quoted(done, s).value.1| < |done| + |s|
    decreases |s|
  {
    if s[0] == '\\' && |s| > 1 {
      QuotedShrinks(done + [s[1]], s[2..]);
    } else if s[0] != '"' {
      QuotedShrinks(done + [s[0]], s[1..]);
    }
  }

  /** A value printed between quotes as it is comes back exactly when it has no quote and no backslash. */
  lemma {:induction false} UnescapedReadsBackIffPlain(done: string, value: string, rest: string)
    ensures Quoted(done, value + ("\"" + rest)) == Ok((done + value, rest)) <==> Plain(value)
    decreases |value|
  {
    var text := value + ("\"" + rest);
    if value == "" {
      assert text == "\"" + rest && done + value == done;
    } else if value[0] == '\\' {
      if Quoted(done, text).Ok? {
        QuotedShrinks(done + [text[1]], text[2..]);
      }
    } else if value[0] == '"' {
      assert Quoted(done, text) == Ok((done, text[1..]));
    } else {
      assert text[1..] == value[1..] + ("\"" + rest);
      UnescapedReadsBackIffPlain(done + [value[0]], value[1..], rest);
      assert done + [value[0]] + value[1..] == done + value;
      assert Plain(value) <==> Plain(value[1..]);
    }
  }

  lemma {:induction false} PlainNeedsNoEscape(s: string)
    requires Plain(s)
    ensures Escaped(s) == s
  {
    if s != "" {
      PlainNeedsNoEscape(s[1..]);
    }
  }
}
