/** Which key ids survive the printer of SignPost and SignGet, which does not escape (internal/httpsig/sign.go). */
module KeyIds {
  import opened Wrappers
  import opened Text
  import opened SignatureHeader
  import opened Signing
  import opened FaithfulSigning

  // ----- The text behind the key id -----

  function HeadersOn(names: string, sig: string): string {
    Printed(",", "headers", names) + Printed(",", "signature", sig)
  }

  /** From the name of the algorithm on. */
  function NameOn(names: string, sig: string): string {
    "rsa-sha256" + ("\"" + HeadersOn(names, sig))
  }

  /** From the comma before `algorithm` on. */
  function AlgorithmOn(names: string, sig: string): string {
    ",algorithm=" + ("\"" + NameOn(names, sig))
  }

  /** From the quote that closes the key id on. */
  function Tail(names: string, sig: string): string {
    "\"" + AlgorithmOn(names, sig)
  }

  lemma HeaderIsKeyIdThenTail(keyId: string, names: string, sig: string)
    ensures SignatureValue(keyId, names, sig) == "keyId=" + ("\"" + (keyId + Tail(names, sig)))
  {
  }

  // ----- What the tail binds -----

  predicate SameKeyId(r: Result<Bindings>, found: Bindings) {
    r.Ok? && Lookup(r.value, "keyid") == Lookup(found, "keyid")
  }

  /** A parameter whose key is of another length does not bind the key id. */
  lemma OtherParamKeepsKeyId(p: SignatureHeader.Param, rest: string, found: Bindings)
    requires WellFormed(p) && |p.key| != 5 && (p.bare && rest != "" ==> rest[0] == ',')
    requires forall more: Bindings :: SameKeyId(Params(rest, more), more)
    ensures SameKeyId(Params(PrintParam(p) + rest, found), found)
  {
    hide Params, PrintParam, ToLower, WellFormed;
    ParamReadsBack(p, rest, found);
    assert |ToLower(p.key)| != |"keyid"|;
    assert SameKeyId(Params(rest, found[ToLower(p.key) := p.value]), found[ToLower(p.key) := p.value]);
  }

  lemma NothingKeepsKeyId(found: Bindings)
    ensures SameKeyId(Params("", found), found)
  {
  }

  lemma QuotedParam(lead: string, key: string, value: string) returns (p: SignatureHeader.Param)
    requires Plain(value) && '=' !in key && key != "" && !IsSpace(key[0]) && !IsSpace(key[|key| - 1]) && key[0] != ','
    requires forall c | c in lead :: IsSeparator(c)
    ensures p == Param.Param(lead, key, value, false) && WellFormed(p)
    ensures PrintParam(p) == lead + key + "=" + ("\"" + value + "\"")
  {
    p := Param.Param(lead, key, value, false);
    PrintedIsPrint(lead, key, value);
  }

  lemma SignatureKeepsKeyId(sig: string, found: Bindings)
    requires Plain(sig)
    ensures SameKeyId(Params(Printed(",", "signature", sig), found), found)
  {
    hide Params, PrintParam, WellFormed, SameKeyId;
    var p := QuotedParam(",", "signature", sig);
    forall more: Bindings ensures SameKeyId(Params("", more), more) {
      NothingKeepsKeyId(more);
    }
    OtherParamKeepsKeyId(p, "", found);
    assert PrintParam(p) + "" == Printed(",", "signature", sig);
  }

  lemma HeadersKeepKeyId(names: string, sig: string, found: Bindings)
    requires Plain(names) && Plain(sig)
    ensures SameKeyId(Params(HeadersOn(names, sig), found), found)
  {
    hide Params, PrintParam, WellFormed, SameKeyId;
    var p := QuotedParam(",", "headers", names);
    forall more: Bindings ensures SameKeyId(Params(Printed(",", "signature", sig), more), more) {
      SignatureKeepsKeyId(sig, more);
    }
    OtherParamKeepsKeyId(p, Printed(",", "signature", sig), found);
  }

  lemma Regroup(key: string, value: string, rest: string)
    ensures Printed(",", key, value) + rest == ("," + key + "=") + ("\"" + (value + ("\"" + rest)))
  {
  }

  lemma AlgorithmText(names: string, sig: string)
    ensures AlgorithmOn(names, sig) == Printed(",", "algorithm", "rsa-sha256") + HeadersOn(names, sig)
  {
    hide Printed, HeadersOn;
    Regroup("algorithm", "rsa-sha256", HeadersOn(names, sig));
  }

  lemma AlgorithmKeepsKeyId(names: string, sig: string, found: Bindings)
    requires Plain(names) && Plain(sig)
    ensures SameKeyId(Params(AlgorithmOn(names, sig), found), found)
  {
    hide Params, PrintParam, WellFormed, SameKeyId, HeadersOn, AlgorithmOn;
    var p := QuotedParam(",", "algorithm", "rsa-sha256");
    forall more: Bindings ensures SameKeyId(Params(HeadersOn(names, sig), more), more) {
      HeadersKeepKeyId(names, sig, more);
    }
    OtherParamKeepsKeyId(p, HeadersOn(names, sig), found);
    AlgorithmText(names, sig);
  }

  /** Where parsing goes on behind the name of a parameter's value, the next key starts in front of its quote. */
  lemma KeyRunsOver(lead: string, key: string, value: string, rest: string)
    ensures "" + (lead + "\"," + key) + "=" + ("\"" + value + "\"") + rest ==
            lead + ("\"" + (Printed(",", key, value) + rest))
  {
    var quoted := "\"" + value + "\"";
    assert Printed(",", key, value) == ("," + key + "=") + quoted;
    assert "\"," == "\"" + ",";
    assert "" + (lead + "\"," + key) + "=" + quoted == lead + ("\"" + (("," + key + "=") + quoted));
  }

  lemma NameKeepsKeyId(names: string, sig: string, found: Bindings)
    requires Plain(names) && Plain(sig)
    ensures SameKeyId(Params(NameOn(names, sig), found), found)
  {
    hide Params, PrintParam, WellFormed, SameKeyId, Printed;
    var p := QuotedParam("", "rsa-sha256" + "\"," + "headers", names);
    forall more: Bindings ensures SameKeyId(Params(Printed(",", "signature", sig), more), more) {
      SignatureKeepsKeyId(sig, more);
    }
    OtherParamKeepsKeyId(p, Printed(",", "signature", sig), found);
    KeyRunsOver("rsa-sha256", "headers", names, Printed(",", "signature", sig));
  }

  lemma TailKeepsKeyId(names: string, sig: string, found: Bindings)
    requires Plain(names) && Plain(sig)
    ensures SameKeyId(Params(Tail(names, sig), found), found)
  {
    hide Params, PrintParam, WellFormed, SameKeyId, HeadersOn, Printed, AlgorithmOn;
    var p := QuotedParam("", "" + "\"," + "algorithm", "rsa-sha256");
    forall more: Bindings ensures SameKeyId(Params(HeadersOn(names, sig), more), more) {
      HeadersKeepKeyId(names, sig, more);
    }
    OtherParamKeepsKeyId(p, HeadersOn(names, sig), found);
    KeyRunsOver("", "algorithm", "rsa-sha256", HeadersOn(names, sig));
    AlgorithmText(names, sig);
    assert "" + Tail(names, sig) == Tail(names, sig);
  }

  // ----- How a quoted value that starts in the key id ends -----

  datatype Stop = Inside(x: string) | AtTail | InTail

  ghost predicate StopsAt(stop: Stop, done: string, w: string, names: string, sig: string, v: string, rest: string) {
    match stop
    case Inside(x) => |x| < |w| && HasSuffix(w, x) && rest == x + Tail(names, sig) && |v| < |done| + |w|
    case AtTail => rest == AlgorithmOn(names, sig) && |v| <= |done| + |w|
    case InTail => w != "" && w[|w| - 1] == '\\' && rest == NameOn(names, sig) && v != "" && v[|v| - 1] == '='
  }

  lemma {:induction false} QuotedStops(done: string, w: string, names: string, sig: string) returns (stop: Stop)
    requires Quoted(done, w + Tail(names, sig)).Ok?
    ensures var (v, rest) := Quoted(done, w + Tail(names, sig)).value; StopsAt(stop, done, w, names, sig, v, rest)
    decreases |w|
  {
    hide NameOn, AlgorithmOn;
    var tail := Tail(names, sig);
    var text := w + tail;
    if w == "" {
      assert text == tail && tail[1..] == AlgorithmOn(names, sig);
      stop := AtTail;
    } else if w[0] == '"' {
      assert text[1..] == w[1..] + tail;
      stop := Inside(w[1..]);
    } else if w[0] == '\\' && |w| == 1 {
      assert text[1] == '"' && text[2..] == AlgorithmOn(names, sig);
      AlgorithmEndsInEquals(done + ['"'], names, sig);
      stop := InTail;
    } else {
      var k := if w[0] == '\\' then 2 else 1;
      assert text[k..] == w[k..] + tail && text[k - 1] == w[k - 1];
      stop := QuotedStops(done + [w[k - 1]], w[k..], names, sig);
      EndOfEnd(w, k, stop);
    }
  }

  lemma EndOfEnd(w: string, k: nat, stop: Stop)
    requires k <= |w|
    ensures stop.Inside? && HasSuffix(w[k..], stop.x) ==> HasSuffix(w, stop.x)
  {
  }

  lemma AlgorithmEndsInEquals(done: string, names: string, sig: string)
    ensures Quoted(done, AlgorithmOn(names, sig)) == Ok((done + ",algorithm=", NameOn(names, sig)))
  {
    hide NameOn, Quoted;
    UnescapedReadsBackIffPlain(done, ",algorithm=", NameOn(names, sig));
  }

  // ----- No later parameter binds the key id to what was printed -----

  /** The key id is bound, but not to `k`. */
  predicate Misses(r: Result<Bindings>, k: string) {
    r.Ok? ==> Lookup(r.value, "keyid") != k
  }

  lemma KeptMisses(r: Result<Bindings>, found: Bindings, k: string)
    requires SameKeyId(r, found) && Lookup(found, "keyid") != k
    ensures Misses(r, k)
  {
  }

  lemma BindingMisses(found: Bindings, key: string, v: string, k: string)
    requires Lookup(found, "keyid") != k && (key == "keyid" ==> v != k)
    ensures Lookup(found[key := v], "keyid") != k
  {
  }

  lemma SkipOne(s: string, found: Bindings)
    requires s != "" && IsSeparator(s[0])
    ensures Params(s, found) == Params(s[1..], found)
  {
    hide OneParam;
  }

  lemma ParamsStep(t: string, found: Bindings)
    requires t != "" && !IsSeparator(t[0])
    ensures Params(t, found) == match OneParam(t)
                                case Err => Err
                                case Ok((key, value, rest)) => Params(rest, found[ToLower(key) := value])
  {
    hide OneParam;
    assert SkipSeparators(t) == t;
  }

  lemma {:induction false} InkIsFound(s: string, from: nat, i: nat)
    requires from <= i < |s| && !IsSpace(s[i])
    ensures FirstInk(s, from) <= i
    decreases i - from
  {
    if from < i {
      InkIsFound(s, from + 1, i);
    }
  }

  lemma TrimKeepsEnd(a: string, b: string)
    requires b != "" && !IsSpace(b[0]) && !IsSpace(b[|b| - 1])
    ensures |TrimSpace(a + b)| >= |b|
  {
    assert (a + b)[|a|] == b[0] && (a + b)[|a + b| - 1] == b[|b| - 1];
    InkIsFound(a + b, 0, |a|);
  }

  /** A parameter whose `=` lies behind the key id has a key that is too long. */
  lemma KeyAcrossMisses(y: string, names: string, sig: string, found: Bindings, k: string)
    requires Plain(names) && Plain(sig) && '=' !in y && Lookup(found, "keyid") != k
    ensures var p := OneParam(y + Tail(names, sig));
            p.Ok? && Misses(Params(p.value.2, found[ToLower(p.value.0) := p.value.1]), k)
  {
    hide Params, ToLower, TrimSpace, HeadersOn, Tail, OneParam;
    var key := "\",algorithm";
    LateParam(y, names, sig);
    TrimKeepsEnd(y, key);
    var next := found[ToLower(TrimSpace(y + key)) := "rsa-sha256"];
    assert |ToLower(TrimSpace(y + key))| != |"keyid"|;
    HeadersKeepKeyId(names, sig, next);
    KeptMisses(Params(HeadersOn(names, sig), next), next, k);
  }

  lemma LateParam(y: string, names: string, sig: string)
    requires '=' !in y
    ensures OneParam(y + Tail(names, sig)) == Ok((TrimSpace(y + "\",algorithm"), "rsa-sha256", HeadersOn(names, sig)))
  {
    hide TrimSpace, HeadersOn, Quoted, NameOn, IndexOf, Tail;
    var key, value := y + "\",algorithm", "\"" + NameOn(names, sig);
    LateText(y, names, sig);
    KeyReadsBack(key, value);
    NameReadsBack(names, sig);
    assert value[1..] == NameOn(names, sig);
  }

  lemma LateText(y: string, names: string, sig: string)
    ensures y + Tail(names, sig) == (y + "\",algorithm") + "=" + ("\"" + NameOn(names, sig))
  {
    hide NameOn;
    var value := "\"" + NameOn(names, sig);
    assert "\"" + (",algorithm=" + value) == "\",algorithm" + "=" + value;
  }

  lemma NameReadsBack(names: string, sig: string)
    ensures Quoted("", NameOn(names, sig)) == Ok(("rsa-sha256", HeadersOn(names, sig)))
  {
    hide Quoted, HeadersOn;
    UnescapedReadsBackIffPlain("", "rsa-sha256", HeadersOn(names, sig));
    assert "" + "rsa-sha256" == "rsa-sha256";
  }

  lemma {:induction false} IndexWithin(y: string, c: char, tail: string)
    requires c in y
    ensures var n := IndexOf(y, c);
            && n < |y| && IndexOf(y + tail, c) == n
            && (y + tail)[..n] == y[..n] && (y + tail)[n..] == y[n..] + tail
    decreases |y|
  {
    if y[0] != c {
      IndexWithin(y[1..], c, tail);
      assert (y + tail)[1..] == y[1..] + tail;
    }
  }

  lemma OneParamWithin(y: string, tail: string)
    requires '=' in y && tail != ""
    ensures var n := IndexOf(y, '=');
            && n < |y|
            && OneParam(y + tail) == match Value(y[n + 1..] + tail)
                                     case Err => Err
                                     case Ok((value, rest)) => Ok((TrimSpace(y[..n]), value, rest))
  {
    hide Value, TrimSpace, IndexOf;
    IndexWithin(y, '=', tail);
    var n := IndexOf(y, '=');
    assert (y + tail)[n + 1..] == (y + tail)[n..][1..] == y[n + 1..] + tail;
  }

  /** An unquoted value that starts in the key id ends at a comma there, or right behind the closing quote. */
  lemma BareStops(z: string, names: string, sig: string)
    requires z != "" && z[0] != '"'
    ensures var (v, rest) := Value(z + Tail(names, sig)).value;
            && Value(z + Tail(names, sig)).Ok?
            && (if ',' in z then
                  HasSuffix(z, z[IndexOf(z, ',')..]) && rest == z[IndexOf(z, ',')..] + Tail(names, sig) && |v| <= |z|
                else rest == AlgorithmOn(names, sig) && |v| <= |z| + 1)
  {
    hide TrimSpace, AlgorithmOn, IndexOf, HasSuffix;
    var tail := Tail(names, sig);
    assert (z + tail)[0] == z[0];
    if ',' in z {
      IndexWithin(z, ',', tail);
      TrimShortens(z[..IndexOf(z, ',')]);
      EndOfItself(z, IndexOf(z, ','));
    } else {
      BareStopsBehind(z, names, sig);
      TrimShortens(z + "\"");
    }
  }

  lemma EndOfItself(z: string, m: nat)
    requires m <= |z|
    ensures HasSuffix(z, z[m..])
  {
  }

  lemma BareStopsBehind(z: string, names: string, sig: string)
    requires ',' !in z
    ensures var t := z + Tail(names, sig); var m := IndexOf(t, ',');
            m == |z| + 1 && t[..m] == z + "\"" && t[m..] == AlgorithmOn(names, sig)
  {
    hide IndexOf, NameOn;
    var rest := AlgorithmOn(names, sig);
    assert z + Tail(names, sig) == (z + "\"") + rest;
    IndexAfter(z + "\"", ',', rest);
  }

  lemma TrimShortens(s: string)
    ensures |TrimSpace(s)| <= |s|
  {
  }

  lemma PlainIsNot(v: string, k: string)
    requires Plain(v) && !Plain(k)
    ensures v != k
  {
  }

  /** Parsing on from inside the key id never binds the key id to all of it. */
  lemma {:induction false} RestMisses(k: string, x: string, names: string, sig: string, found: Bindings)
    requires !Plain(k) && Plain(names) && Plain(sig) && HasSuffix(k, x) && |x| < |k| && Lookup(found, "keyid") != k
    ensures Misses(Params(x + Tail(names, sig), found), k)
    decreases |x|, 1
  {
    hide Params, OneParam, SkipSeparators, AlgorithmOn, Lookup, Misses, ToLower, Plain;
    var tail := Tail(names, sig);
    if x == "" {
      assert x + tail == tail;
      TailKeepsKeyId(names, sig, found);
      KeptMisses(Params(tail, found), found, k);
    } else if IsSeparator(x[0]) {
      SkipOne(x + tail, found);
      assert (x + tail)[1..] == x[1..] + tail;
      RestMisses(k, x[1..], names, sig, found);
    } else {
      ParamsStep(x + tail, found);
      if '=' !in x {
        KeyAcrossMisses(x, names, sig, found, k);
      } else {
        OneParamWithin(x, tail);
        ParamMisses(k, x, names, sig, found);
        ErrMisses(k);
      }
    }
  }

  lemma ErrMisses(k: string)
    ensures Misses(Err, k)
  {
  }

  lemma {:induction false} ParamMisses(k: string, y: string, names: string, sig: string, found: Bindings)
    requires !Plain(k) && Plain(names) && Plain(sig) && HasSuffix(k, y) && |y| < |k| && Lookup(found, "keyid") != k
    requires '=' in y && IndexOf(y, '=') < |y|
    ensures var n := IndexOf(y, '='); var r := Value(y[n + 1..] + Tail(names, sig));
            r.Ok? ==> Misses(Params(r.value.1, found[ToLower(TrimSpace(y[..n])) := r.value.0]), k)
    decreases |y|, 0
  {
    hide Params, Value, AlgorithmOn, NameOn, Lookup, Misses, ToLower, TrimSpace, Plain, IndexOf;
    var n := IndexOf(y, '=');
    var z := y[n + 1..];
    var r := Value(z + Tail(names, sig));
    if r.Ok? {
      var (v, rest) := r.value;
      var next := found[ToLower(TrimSpace(y[..n])) := v];
      ValueMisses(k, z, names, sig, v, rest);
      BindingMisses(found, ToLower(TrimSpace(y[..n])), v, k);
      if x :| |x| <= |z| && HasSuffix(z, x) && rest == x + Tail(names, sig) {
        RestMisses(k, x, names, sig, next);
      } else if rest == AlgorithmOn(names, sig) {
        AlgorithmKeepsKeyId(names, sig, next);
        KeptMisses(Params(rest, next), next, k);
      } else {
        NameKeepsKeyId(names, sig, next);
        KeptMisses(Params(rest, next), next, k);
      }
    }
  }

  /** A value that starts in the key id is not all of it; parsing goes on inside it or at two places behind it. */
  lemma ValueMisses(k: string, z: string, names: string, sig: string, v: string, rest: string)
    requires !Plain(k) && HasSuffix(k, z) && |z| + 1 < |k| && Value(z + Tail(names, sig)) == Ok((v, rest))
    ensures v != k
    ensures rest == AlgorithmOn(names, sig) || rest == NameOn(names, sig)
            || exists x :: |x| <= |z| && HasSuffix(z, x) && rest == x + Tail(names, sig)
  {
    hide AlgorithmOn, NameOn, TrimSpace, Quoted, Plain, IndexOf;
    var tail := Tail(names, sig);
    if z == "" {
      assert z + tail == tail && tail[1..] == AlgorithmOn(names, sig);
      AlgorithmEndsInEquals("", names, sig);
      assert v == ",algorithm=";
      assert Plain(v) by {
        AlgorithmIsPlain();
      }
      PlainIsNot(v, k);
    } else if z[0] == '"' {
      var w := z[1..];
      assert (z + tail)[1..] == w + tail;
      var stop := QuotedStops("", w, names, sig);
      if stop.Inside? {
        assert HasSuffix(z, stop.x);
      }
      assert stop.InTail? ==> k[|k| - 1] == w[|w| - 1];
    } else {
      BareStops(z, names, sig);
      if ',' in z {
        var m := IndexOf(z, ',');
        assert HasSuffix(z, z[m..]);
      }
    }
  }

  lemma AlgorithmIsPlain()
    ensures Plain(",algorithm=")
  {
  }

  lemma HeaderStarts(keyId: string, names: string, sig: string)
    ensures var t := SignatureValue(keyId, names, sig); var w := keyId + Tail(names, sig);
            && Parse(t) == (match Params(t, map[])
                            case Err => Err
                            case Ok(found) => if found == map[] then Err else Ok(found))
            && Params(t, map[]) == match Quoted("", w)
                                   case Err => Err
                                   case Ok((v, rest)) => Params(rest, map["keyid" := v])
  {
    hide Params, Tail, Quoted, SignatureValue, ToLower, OneParam, SkipSeparators, TrimSpace;
    var w := keyId + Tail(names, sig);
    var t := SignatureValue(keyId, names, sig);
    HeaderIsKeyIdThenTail(keyId, names, sig);
    HeaderIsTrimmed(keyId, names, sig);
    FirstOneParam(w);
    KeyIdKey();
    ParamsStep(t, map[]);
  }

  lemma KeyIdKey()
    ensures ToLower("keyId") == "keyid"
  {
    LowerKeys();
  }

  lemma HeaderIsTrimmed(keyId: string, names: string, sig: string)
    ensures TrimSpace(SignatureValue(keyId, names, sig)) == SignatureValue(keyId, names, sig)
  {
    hide TrimSpace;
    var t := SignatureValue(keyId, names, sig);
    assert t[0] == 'k' && t[|t| - 1] == '"';
  }

  lemma FirstOneParam(w: string)
    ensures OneParam("keyId=" + ("\"" + w)) == match Quoted("", w)
                                               case Err => Err
                                               case Ok((v, rest)) => Ok(("keyId", v, rest))
  {
    hide Quoted, TrimSpace, IndexOf;
    assert "keyId=" + ("\"" + w) == "keyId" + "=" + ("\"" + w);
    KeyReadsBack("keyId", "\"" + w);
    TrimmedStays("keyId");
    assert ("\"" + w)[1..] == w;
  }

  /** The value read first is not the key id. */
  lemma StopMisses(keyId: string, stop: Stop, names: string, sig: string, v: string, rest: string)
    requires !Plain(keyId) && StopsAt(stop, "", keyId, names, sig, v, rest)
    requires Quoted("", keyId + Tail(names, sig)) == Ok((v, rest))
    ensures v != keyId
  {
    hide Quoted, AlgorithmOn, NameOn, Plain;
    if stop.AtTail? {
      UnescapedReadsBackIffPlain("", keyId, AlgorithmOn(names, sig));
      assert "" + keyId == keyId;
    }
  }

  lemma BoundToAnother(k: string, v: string)
    requires v != k
    ensures Lookup(map["keyid" := v], "keyid") != k
  {
  }

  lemma RestOfHeaderMisses(k: string, stop: Stop, names: string, sig: string, v: string, rest: string)
    requires !Plain(k) && Plain(names) && Plain(sig) && StopsAt(stop, "", k, names, sig, v, rest)
    requires Lookup(map["keyid" := v], "keyid") != k
    ensures Misses(Params(rest, map["keyid" := v]), k)
  {
    hide Params, AlgorithmOn, NameOn, Tail, Misses, Lookup, Plain;
    var found := map["keyid" := v];
    match stop
    case Inside(x) => RestMisses(k, x, names, sig, found);
    case AtTail =>
      AlgorithmKeepsKeyId(names, sig, found);
      KeptMisses(Params(rest, found), found, k);
    case InTail =>
      NameKeepsKeyId(names, sig, found);
      KeptMisses(Params(rest, found), found, k);
  }

  lemma AwkwardKeyIdIsMissed(keyId: string, names: string, sig: string)
    requires !Plain(keyId) && Plain(names) && Plain(sig)
    ensures Misses(Parse(SignatureValue(keyId, names, sig)), keyId)
  {
    hide Params, Quoted, AlgorithmOn, NameOn, Tail, Misses, Parse, SignatureValue, Lookup;
    var w := keyId + Tail(names, sig);
    HeaderStarts(keyId, names, sig);
    ErrMisses(keyId);
    if Quoted("", w).Ok? {
      var (v, rest) := Quoted("", w).value;
      var stop := QuotedStops("", keyId, names, sig);
      StopMisses(keyId, stop, names, sig, v, rest);
      BoundToAnother(keyId, v);
      RestOfHeaderMisses(keyId, stop, names, sig, v, rest);
    }
  }

  /** The header printed for a key id binds it again exactly if the key id has no quote and no backslash. */
  lemma KeyIdComesBackIffPlain(keyId: string, names: string, sig: string)
    requires Plain(names) && Plain(sig)
    ensures var r := Parse(SignatureValue(keyId, names, sig));
            (r.Ok? && "keyid" in r.value && r.value["keyid"] == keyId) <==> Plain(keyId)
  {
    hide Parse, SignatureValue, Plain;
    if Plain(keyId) {
      SignatureValueReadsBack(keyId, names, sig);
    } else {
      AwkwardKeyIdIsMissed(keyId, names, sig);
    }
  }
}
