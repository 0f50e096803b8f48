/**
 * The test-configuration script that fills `.env` from the infrastructure's outputs: it
 * reads `key = value` / `key = "value"` lines, maps four of the outputs onto environment
 * variables, and writes each value into the first template line that assigns it.
 */
module ConfigureOutputs {
  import opened Wrappers
  import opened Strings

  /** The length of the longest prefix of word characters. */
  function WordLen(s: string): (n: nat)
    ensures n <= |s| && AllWord(s[..n]) && (n == |s| || !IsWordChar(s[n]))
  {
    if s != [] && IsWordChar(s[0]) then
      var n := 1 + WordLen(s[1..]);
      assert s[..n] == [s[0]] + s[1..][..n - 1];
      n
    else 0
  }

  /** The length of the longest prefix of white space. */
  function SpaceLen(s: string): (n: nat)
    ensures n <= |s| && AllSpace(s[..n]) && (n == |s| || !IsSpace(s[n]))
  {
    if s != [] && IsSpace(s[0]) then
      var n := 1 + SpaceLen(s[1..]);
      assert s[..n] == [s[0]] + s[1..][..n - 1];
      n
    else 0
  }

  /**
   * One way the line pattern `^(\w+)\s*=\s*"?([^"]+)"?$` matches `line`: the key is
   * `line[..i]`, white space runs to the `=` at `j` and from there to `k`, an optional
   * opening quote ends at `l`, the captured value is `line[l..m]` (no quote in it), and an
   * optional closing quote ends the line.
   */
  predicate IsMatch(line: string, i: nat, j: nat, k: nat, l: nat, m: nat) {
    && KeyPart(line, i, j)
    && j + 1 <= k <= l < m <= |line| <= m + 1
    && ValuePart(line, j, k, l, m)
  }

  /** The key `line[..i]` and the white space up to the `=` at `j`. */
  predicate KeyPart(line: string, i: nat, j: nat) {
    0 < i <= j < |line| && AllWord(line[..i]) && AllSpace(line[i..j]) && line[j] == '='
  }

  /** After the `=` at `j`: white space to `k`, an optional quote to `l`, the value to `m`, an optional quote. */
  predicate ValuePart(line: string, j: nat, k: nat, l: nat, m: nat)
    requires j + 1 <= k <= l < m <= |line|
  {
    && AllSpace(line[j + 1..k])
    && (l == k || (l == k + 1 && line[k] == '"'))
    && NoQuote(line[l..m])
    && (|line| == m || line[m] == '"')
  }

  /** `[^"]*`: no double quote. */
  predicate NoQuote(s: string) {
    forall c :: 0 <= c < |s| ==> s[c] != '"'
  }

  /** Where the `=` after the key would be: past the white space that follows the key. */
  function EqualsAt(line: string): (j: nat)
    ensures WordLen(line) <= j <= |line| && AllSpace(line[WordLen(line)..j])
    ensures j == |line| || !IsSpace(line[j])
  {
    var i := WordLen(line);
    var j := i + SpaceLen(line[i..]);
    assert line[i..j] == line[i..][..j - i];
    j
  }

  /** Where the value ends: before a closing quote that ends the line. */
  function ValueEnd(line: string): (m: nat)
    requires line != []
    ensures m <= |line| <= m + 1 && (|line| == m || line[m] == '"')
  {
    if line[|line| - 1] == '"' then |line| - 1 else |line|
  }

  /** The end of the white space after the `=` at `j`, looking no further than `m`. */
  function AfterSpace(line: string, j: nat, m: nat): (s: nat)
    requires j < m <= |line|
    ensures j + 1 <= s <= m && AllSpace(line[j + 1..s]) && (s == m || !IsSpace(line[s]))
  {
    var t := line[j + 1..m];
    var s := j + 1 + SpaceLen(t);
    assert line[j + 1..s] == t[..SpaceLen(t)];
    s
  }

  /** Where the captured value starts, for the `=` at `j` and the value ending at `m`; None when nothing matches. */
  function ValueStart(line: string, j: nat, m: nat): Option<nat>
    requires j < m <= |line|
  {
    var s := AfterSpace(line, j, m);
    if s < m && line[s] == '"' then
      if s + 1 < m && NoQuote(line[s + 1..m]) then Some(s + 1) else None
    else if j + 1 < m && NoQuote(line[s..m]) then Some(s)
    else None
  }

  /**
   * The entry a line contributes: its key and its trimmed value, or None when the pattern
   * does not match.
   */
  function ParseLine(line: string): (r: Option<(string, string)>)
    ensures r.Some? ==> var key := r.value.0;
      && key != [] && |key| < |line| && key == line[..|key|] && AllWord(key) && !IsWordChar(line[|key|])
    ensures r.Some? ==> '"' !in r.value.1
  {
    var i := WordLen(line);
    var j := EqualsAt(line);
    if i == 0 || j >= |line| || line[j] != '=' then None
    else
      var m := ValueEnd(line);
      if m <= j then None
      else
        match ValueStart(line, j, m)
        case None => None
        case Some(l) => Some((line[..i], Trim(line[l..m])))
  }

  /** The key and the `=` of any match are where ParseLine looks for them. */
  lemma {:induction false} KeyPartUnique(line: string, i: nat, j: nat)
    requires KeyPart(line, i, j)
    ensures WordLen(line) == i && EqualsAt(line) == j
  {
    WordsUpTo(line, i);
    if i < j {
      assert line[i..j][0] == line[i];
    }
    WordLenAt(line, i);
    SpacesUpTo(line, i, j);
    SpacesUpTo(line, i, EqualsAt(line));
  }

  /** Every character of the word prefix up to i is a word character. */
  lemma WordsUpTo(line: string, i: nat)
    requires i <= |line| && AllWord(line[..i])
    ensures forall a :: 0 <= a < i ==> IsWordChar(line[a])
  {
    forall a | 0 <= a < i
      ensures IsWordChar(line[a])
    {
      assert line[..i][a] == line[a];
    }
  }

  /** Every character from i up to j is white space. */
  lemma SpacesUpTo(line: string, i: nat, j: nat)
    requires i <= j <= |line| && AllSpace(line[i..j])
    ensures forall a :: i <= a < j ==> IsSpace(line[a])
  {
    forall a | i <= a < j
      ensures IsSpace(line[a])
    {
      assert line[i..j][a - i] == line[a];
    }
  }

  /** A word prefix ended by a non-word character at i is the longest one. */
  lemma WordLenAt(line: string, i: nat)
    requires i < |line| && !IsWordChar(line[i])
    requires forall a :: 0 <= a < i ==> IsWordChar(line[a])
    ensures WordLen(line) == i
  {
    WordsUpTo(line, WordLen(line));
  }

  /** The value of any match ends where ParseLine ends it. */
  lemma {:induction false} ValueEndFound(line: string, l: nat, m: nat)
    requires l < m <= |line| <= m + 1 && NoQuote(line[l..m]) && (|line| == m || line[m] == '"')
    ensures ValueEnd(line) == m
  {
    if |line| == m {
      assert line[m - 1] == line[l..m][m - 1 - l];
    }
  }

  /** The white space of any match ends no later than where ParseLine ends it. */
  lemma {:induction false} AfterSpaceCovers(line: string, j: nat, k: nat, m: nat)
    requires j + 1 <= k <= m <= |line| && AllSpace(line[j + 1..k])
    ensures k <= AfterSpace(line, j, m)
  {
    var s := AfterSpace(line, j, m);
  }

  /** A quoted match opens its quote exactly where the white space ends. */
  lemma {:induction false} QuotedFound(line: string, j: nat, k: nat, m: nat)
    requires j + 1 <= k < m - 1 && m <= |line| && ValuePart(line, j, k, k + 1, m)
    ensures ValueStart(line, j, m) == Some(k + 1)
  {
    var s := AfterSpace(line, j, m);
    AfterSpaceCovers(line, j, k, m);
  }

  /** A later start of a quote-free stretch is quote-free. */
  lemma SuffixNoQuote(line: string, k: nat, s: nat, m: nat)
    requires k <= s <= m <= |line| && NoQuote(line[k..m])
    ensures NoQuote(line[s..m])
  {
    forall c | 0 <= c < m - s
      ensures line[s..m][c] != '"'
    {
      assert line[s..m][c] == line[k..m][s - k + c];
    }
  }

  /** A later start of a white-space stretch is white space. */
  lemma SuffixSpace(line: string, j: nat, k: nat, s: nat)
    requires j <= k <= s <= |line| && AllSpace(line[j..s])
    ensures AllSpace(line[k..s])
  {
    forall c | 0 <= c < s - k
      ensures IsSpace(line[k..s][c])
    {
      assert line[k..s][c] == line[j..s][k - j + c];
    }
  }

  /** An unquoted match captures the value ParseLine finds, give or take leading white space. */
  lemma {:induction false} UnquotedFound(line: string, j: nat, k: nat, m: nat)
    requires j + 1 <= k < m <= |line| && ValuePart(line, j, k, k, m)
    ensures ValueStart(line, j, m).Some? && Trim(line[ValueStart(line, j, m).value..m]) == Trim(line[k..m])
  {
    var s := AfterSpace(line, j, m);
    AfterSpaceCovers(line, j, k, m);
    SuffixNoQuote(line, k, s, m);
    if s < m {
      assert line[s] == line[s..m][0];
    }
    assert ValueStart(line, j, m) == Some(s);
    assert line[k..m] == line[k..s] + line[s..m];
    SuffixSpace(line, j + 1, k, s);
    TrimSkipsLeadingSpace(line[k..s], line[s..m]);
  }

  /**
   * Every way the pattern matches yields the entry ParseLine computes, so it is the one the
   * regular-expression engine finds, whatever match it settles on.
   */
  lemma {:induction false} ParseLineComplete(line: string, i: nat, j: nat, k: nat, l: nat, m: nat)
    requires IsMatch(line, i, j, k, l, m)
    ensures ParseLine(line) == Some((line[..i], Trim(line[l..m])))
  {
    KeyPartUnique(line, i, j);
    ValueEndFound(line, l, m);
    if l == k + 1 {
      QuotedFound(line, j, k, m);
    } else {
      UnquotedFound(line, j, k, m);
    }
  }

  /** Every entry ParseLine yields comes from a match of the pattern. */
  lemma {:induction false} ParseLineSound(line: string)
    requires ParseLine(line).Some?
    ensures exists i: nat, j: nat, k: nat, l: nat, m: nat ::
      IsMatch(line, i, j, k, l, m) && ParseLine(line) == Some((line[..i], Trim(line[l..m])))
  {
    var k, l := MatchOf(line);
    assert IsMatch(line, WordLen(line), EqualsAt(line), k, l, ValueEnd(line));
  }

  /** The positions of the match behind an entry ParseLine yields. */
  lemma {:induction false} MatchOf(line: string) returns (k: nat, l: nat)
    requires ParseLine(line).Some?
    ensures line != [] && EqualsAt(line) < l < ValueEnd(line)
    ensures IsMatch(line, WordLen(line), EqualsAt(line), k, l, ValueEnd(line))
    ensures ParseLine(line) == Some((line[..WordLen(line)], Trim(line[l..ValueEnd(line)])))
  {
    var i := WordLen(line);
    var j := EqualsAt(line);
    assert KeyPart(line, i, j);
    var m := ValueEnd(line);
    assert ValueStart(line, j, m).Some?;
    k, l := ValueStartMatch(line, j, m);
    if ValueStart(line, j, m) != Some(l) {
      BlankTrims(line, l, m);
    }
  }

  /** The value positions of the match behind a value start ValueStart finds. */
  lemma {:induction false} ValueStartMatch(line: string, j: nat, m: nat) returns (k: nat, l: nat)
    requires j < m <= |line| <= m + 1 && (|line| == m || line[m] == '"')
    requires ValueStart(line, j, m).Some?
    ensures j + 1 <= k <= l < m
    ensures ValuePart(line, j, k, l, m)
    ensures ValueStart(line, j, m) == Some(l) || (ValueStart(line, j, m) == Some(m) && AllSpace(line[l..m]))
  {
    var s := AfterSpace(line, j, m);
    if s < m && line[s] == '"' {
      k, l := s, s + 1;
      assert ValueStart(line, j, m) == Some(l);
      OpenQuoteValue(line, j, k, m);
    } else if s < m {
      k, l := s, s;
      assert ValueStart(line, j, m) == Some(l);
      BareValue(line, j, k, m);
    } else {
      k, l := j + 1, j + 1;
      assert ValueStart(line, j, m) == Some(m);
      BlankValue(line, j, m);
    }
  }

  lemma OpenQuoteValue(line: string, j: nat, k: nat, m: nat)
    requires j + 1 <= k && k + 1 < m <= |line| && (|line| == m || line[m] == '"')
    requires AllSpace(line[j + 1..k]) && line[k] == '"' && NoQuote(line[k + 1..m])
    ensures ValuePart(line, j, k, k + 1, m)
  {
  }

  lemma BareValue(line: string, j: nat, k: nat, m: nat)
    requires j + 1 <= k < m <= |line| && (|line| == m || line[m] == '"')
    requires AllSpace(line[j + 1..k]) && NoQuote(line[k..m])
    ensures ValuePart(line, j, k, k, m)
  {
  }

  /** A value of white space alone: the match starts it right after the `=`. */
  lemma BlankValue(line: string, j: nat, m: nat)
    requires j + 1 < m <= |line| && (|line| == m || line[m] == '"')
    requires AllSpace(line[j + 1..m])
    ensures ValuePart(line, j, j + 1, j + 1, m)
  {
    SpaceNoQuote(line[j + 1..m]);
  }

  /** White space, and the empty stretch at its end, both trim to nothing. */
  lemma BlankTrims(line: string, l: nat, m: nat)
    requires l <= m <= |line| && AllSpace(line[l..m])
    ensures Trim(line[l..m]) == [] == Trim(line[m..m])
  {
    assert AllSpace(line[m..m]);
  }

  /** White space alone is free of quotes. */
  lemma {:induction false} SpaceNoQuote(a: string)
    requires AllSpace(a)
    ensures NoQuote(a)
  {
    forall c | 0 <= c < |a|
      ensures a[c] != '"'
    {
      assert IsSpace(a[c]);
    }
  }

  /** The entries of the outputs file's lines, read in order, a later key overwriting an earlier one. */
  function Collect(entries: seq<Option<(string, string)>>): map<string, string> {
    if entries == [] then map[]
    else
      var outputs := Collect(entries[..|entries| - 1]);
      var last := entries[|entries| - 1];
      if last.Some? then outputs[last.value.0 := last.value.1] else outputs
  }

  /**
   * A key is collected exactly when some entry assigns it, and it holds the value of the last
   * entry that does; lines that do not match contribute nothing.
   */
  lemma {:induction false} CollectLastWins(entries: seq<Option<(string, string)>>, key: string)
    ensures key in Collect(entries) <==> exists n :: 0 <= n < |entries| && entries[n].Some? && entries[n].value.0 == key
    ensures forall n :: 0 <= n < |entries| && entries[n].Some? && entries[n].value.0 == key
                        && (forall a :: n < a < |entries| ==> entries[a].None? || entries[a].value.0 != key) ==>
      key in Collect(entries) && Collect(entries)[key] == entries[n].value.1
  {
    if entries != [] {
      var init := entries[..|entries| - 1];
      CollectLastWins(init, key);
      assert forall n :: 0 <= n < |init| ==> init[n] == entries[n];
    }
  }

  /** The parsed form of each line. */
  function Entries(lines: seq<string>): (es: seq<Option<(string, string)>>)
    ensures |es| == |lines| && forall n :: 0 <= n < |lines| ==> es[n] == ParseLine(lines[n])
  {
    Parsed(lines, ParseLine)
  }

  function Parsed(lines: seq<string>, parse: string -> Option<(string, string)>): (es: seq<Option<(string, string)>>)
    ensures |es| == |lines| && forall n :: 0 <= n < |lines| ==> es[n] == parse(lines[n])
  {
    seq(|lines|, n requires 0 <= n < |lines| => parse(lines[n]))
  }

  /** The script's parse loop: the entries of every line of the outputs file. */
  method ParseOutputs(content: string) returns (outputs: map<string, string>)
    ensures outputs == Collect(Entries(Split(content, '\n')))
  {
    var lines := Split(content, '\n');
    outputs := CollectLines(lines, ParseLine);
  }

  /** The loop over the lines, for any way `parse` reads a line. */
  method CollectLines(lines: seq<string>, parse: string -> Option<(string, string)>) returns (outputs: map<string, string>)
    ensures outputs == Collect(Parsed(lines, parse))
  {
    ghost var es := Parsed(lines, parse);
    outputs := map[];
    var i := 0;
    while i < |lines|
      invariant 0 <= i <= |lines|
      invariant outputs == Collect(es[..i])
    {
      assert es[..i + 1][..i] == es[..i];
      var entry := parse(lines[i]);
      assert es[..i + 1][i] == entry;
      if entry.Some? {
        outputs := outputs[entry.value.0 := entry.value.1];
      }
      i := i + 1;
    }
    assert es[..i] == es;
  }

  const DEFAULT_REGION: string := "us-east-1"

  /** A JavaScript object property read: absent is `undefined`. */
  function Get(outputs: map<string, string>, key: string): Option<string> {
    if key in outputs then Some(outputs[key]) else None
  }

  /** `!!value` for a property that may be absent. */
  predicate Filled(value: Option<string>) {
    value.Some? && value.value != ""
  }

  /** The four variables, in order, and the outputs they come from; the region falls back to us-east-1. */
  function EnvVars(outputs: map<string, string>): (vars: seq<(string, Option<string>)>)
    ensures |vars| == 4
    ensures vars[0].0 == "AWS_REGION" && vars[1].0 == "API_URL"
    ensures vars[2].0 == "COGNITO_USER_POOL_ID" && vars[3].0 == "COGNITO_CLIENT_ID"
    ensures Filled(vars[0].1)
    ensures vars[0].1 == Some(if Filled(Get(outputs, "region")) then outputs["region"] else DEFAULT_REGION)
    ensures vars[1].1 == Get(outputs, "api_gateway_url")
    ensures vars[2].1 == Get(outputs, "cognito_user_pool_id")
    ensures vars[3].1 == Get(outputs, "cognito_user_pool_client_id")
  {
    var region := if Filled(Get(outputs, "region")) then outputs["region"] else DEFAULT_REGION;
    [("AWS_REGION", Some(region)),
     ("API_URL", Get(outputs, "api_gateway_url")),
     ("COGNITO_USER_POOL_ID", Get(outputs, "cognito_user_pool_id")),
     ("COGNITO_CLIENT_ID", Get(outputs, "cognito_user_pool_client_id"))]
  }

  /** The first template line that starts with `key=`. */
  function FirstLineFor(lines: seq<string>, key: string): (r: Option<nat>)
    ensures r.Some? ==> r.value < |lines| && StartsWith(lines[r.value], key + "=")
    ensures r.Some? ==> forall n :: 0 <= n < r.value ==> !StartsWith(lines[n], key + "=")
    ensures r.None? ==> forall n :: 0 <= n < |lines| ==> !StartsWith(lines[n], key + "=")
  {
    if lines == [] then None
    else if StartsWith(lines[0], key + "=") then Some(0)
    else
      match FirstLineFor(lines[1..], key)
      case Some(n) => Some(n + 1)
      case None => None
  }

  /**
   * One variable's replacement (`^KEY=.*$` with the `m` flag, no `g`): a filled value
   * replaces the first line assigning the key; an empty or absent one changes nothing.
   */
  function Substitute(lines: seq<string>, key: string, value: Option<string>): (r: seq<string>)
    ensures |r| == |lines|
    ensures !Filled(value) || FirstLineFor(lines, key).None? ==> r == lines
    ensures Filled(value) && FirstLineFor(lines, key).Some? ==>
      r == lines[FirstLineFor(lines, key).value := key + "=" + value.value]
  {
    if !Filled(value) then lines
    else
      match FirstLineFor(lines, key)
      case None => lines
      case Some(n) => lines[n := key + "=" + value.value]
  }

  /** All variables' replacements, in order. */
  function SubstituteAll(lines: seq<string>, vars: seq<(string, Option<string>)>): seq<string>
    decreases |vars|
  {
    if vars == [] then lines
    else SubstituteAll(Substitute(lines, vars[0].0, vars[0].1), vars[1..])
  }

  /** The script's replacement loop over the variables. */
  method FillTemplate(template: seq<string>, vars: seq<(string, Option<string>)>) returns (lines: seq<string>)
    ensures lines == SubstituteAll(template, vars)
  {
    lines := template;
    var i := 0;
    while i < |vars|
      invariant 0 <= i <= |vars|
      invariant SubstituteAll(lines, vars[i..]) == SubstituteAll(template, vars)
    {
      assert vars[i..][1..] == vars[i + 1..];
      lines := Substitute(lines, vars[i].0, vars[i].1);
      i := i + 1;
    }
  }

  /** A line assigning one word key never assigns another. */
  lemma {:induction false} AssignsOneKey(line: string, a: string, b: string)
    requires AllWord(a) && AllWord(b) && a != b
    requires StartsWith(line, a + "=")
    ensures !StartsWith(line, b + "=")
  {
    assert line[|a|] == '=' && line[..|a|] == a;
    if |a| < |b| {
      assert (b + "=")[|a|] == b[|a|] != '=';
    } else if |b| < |a| {
      assert (b + "=")[|b|] == '=' != line[|b|] == a[|b|];
    } else {
      assert (b + "=")[..|b|] == b;
    }
  }

  /** Replacing one key's line leaves the first line of every other key where it was. */
  lemma {:induction false} SubstituteKeepsOtherKeys(lines: seq<string>, key: string, value: Option<string>, other: string)
    requires AllWord(key) && AllWord(other) && key != other
    ensures FirstLineFor(Substitute(lines, key, value), other) == FirstLineFor(lines, other)
  {
    var r := Substitute(lines, key, value);
    if Filled(value) && FirstLineFor(lines, key).Some? {
      var n := FirstLineFor(lines, key).value;
      AssignsOneKey(lines[n], key, other);
      AssignsOneKey(r[n], key, other);
      assert forall c :: 0 <= c < |lines| ==> (StartsWith(r[c], other + "=") <==> StartsWith(lines[c], other + "="));
    }
  }

  /** The line of the template that some filled variable's key first assigns. */
  predicate Targeted(template: seq<string>, vars: seq<(string, Option<string>)>, n: nat) {
    exists v :: 0 <= v < |vars| && Filled(vars[v].1) && FirstLineFor(template, vars[v].0) == Some(n)
  }

  predicate DistinctWordKeys(vars: seq<(string, Option<string>)>) {
    && (forall v :: 0 <= v < |vars| ==> AllWord(vars[v].0))
    && (forall v, w :: 0 <= v < w < |vars| ==> vars[v].0 != vars[w].0)
  }

  /**
   * With distinct word keys, every filled variable ends up on the first template line that
   * assigned it, and every other line of the template is kept as it was.
   */
  lemma {:induction false} SubstituteAllResult(template: seq<string>, vars: seq<(string, Option<string>)>)
    requires DistinctWordKeys(vars)
    ensures |SubstituteAll(template, vars)| == |template|
    ensures forall v, n :: 0 <= v < |vars| && Filled(vars[v].1) && FirstLineFor(template, vars[v].0) == Some(n) ==>
      SubstituteAll(template, vars)[n] == vars[v].0 + "=" + vars[v].1.value
    ensures forall n :: 0 <= n < |template| && !Targeted(template, vars, n) ==>
      SubstituteAll(template, vars)[n] == template[n]
    decreases |vars|
  {
    if vars != [] {
      var key := vars[0].0;
      var next := Substitute(template, key, vars[0].1);
      var rest := vars[1..];
      assert DistinctWordKeys(rest) by {
        assert forall v :: 0 <= v < |rest| ==> rest[v] == vars[v + 1];
      }
      SubstituteAllResult(next, rest);
      var r := SubstituteAll(template, vars);
      assert r == SubstituteAll(next, rest);
      forall v | 0 <= v < |rest|
        ensures FirstLineFor(next, rest[v].0) == FirstLineFor(template, rest[v].0)
      {
        assert rest[v] == vars[v + 1];
        SubstituteKeepsOtherKeys(template, key, vars[0].1, rest[v].0);
      }
      forall v, n | 0 <= v < |vars| && Filled(vars[v].1) && FirstLineFor(template, vars[v].0) == Some(n)
        ensures r[n] == vars[v].0 + "=" + vars[v].1.value
      {
        if v == 0 {
          assert next[n] == key + "=" + vars[0].1.value;
          assert !Targeted(next, rest, n) by {
            forall w | 0 <= w < |rest| && Filled(rest[w].1)
              ensures FirstLineFor(next, rest[w].0) != Some(n)
            {
              assert rest[w] == vars[w + 1];
              AssignsOneKey(next[n], key, rest[w].0);
            }
          }
        } else {
          assert rest[v - 1] == vars[v];
        }
      }
      forall n | 0 <= n < |template| && !Targeted(template, vars, n)
        ensures r[n] == template[n]
      {
        assert !Targeted(next, rest, n) by {
          forall w | 0 <= w < |rest| && Filled(rest[w].1)
            ensures FirstLineFor(next, rest[w].0) != Some(n)
          {
            assert rest[w] == vars[w + 1];
          }
        }
      }
    }
  }

  /** The four variable names are distinct word keys. */
  lemma {:induction false} EnvVarKeys(outputs: map<string, string>)
    ensures DistinctWordKeys(EnvVars(outputs))
  {
    var vars := EnvVars(outputs);
    assert AllWord(vars[0].0) && AllWord(vars[1].0) && AllWord(vars[2].0) && AllWord(vars[3].0);
    assert vars[0].0 != vars[1].0 && vars[0].0 != vars[2].0 && vars[0].0 != vars[3].0;
    assert vars[1].0 != vars[2].0 && vars[1].0 != vars[3].0 && vars[2].0 != vars[3].0;
  }

  /** The script's outcome: exit status 1 and nothing written when an input is missing, else the new `.env`. */
  datatype Run = Run(exitCode: int, written: Option<string>)

  /**
   * `outputsFile`/`template` are the two files' contents, None when a file does not exist;
   * the outputs are read before the template is looked for.
   */
  method Configure(outputsFile: Option<string>, template: Option<string>) returns (run: Run)
    ensures outputsFile.None? ==> run == Run(1, None)
    ensures outputsFile.Some? && template.None? ==> run == Run(1, None)
    ensures outputsFile.Some? && template.Some? ==>
      run == Run(0, Some(Join(SubstituteAll(Split(template.value, '\n'),
                                            EnvVars(Collect(Entries(Split(outputsFile.value, '\n'))))), '\n')))
  {
    if outputsFile.None? {
      return Run(1, None);
    }
    var outputs := ParseOutputs(outputsFile.value);
    if template.None? {
      return Run(1, None);
    }
    var lines := FillTemplate(Split(template.value, '\n'), EnvVars(outputs));
    run := Run(0, Some(Join(lines, '\n')));
  }

  /** Without any filled variable the template is written back unchanged. */
  lemma {:induction false} NothingToFillKeepsTemplate(template: string, vars: seq<(string, Option<string>)>)
    requires forall v :: 0 <= v < |vars| ==> !Filled(vars[v].1)
    ensures Join(SubstituteAll(Split(template, '\n'), vars), '\n') == template
  {
    NothingToFill(Split(template, '\n'), vars);
    JoinSplit(template, '\n');
  }

  lemma {:induction false} NothingToFill(lines: seq<string>, vars: seq<(string, Option<string>)>)
    requires forall v :: 0 <= v < |vars| ==> !Filled(vars[v].1)
    ensures SubstituteAll(lines, vars) == lines
    decreases |vars|
  {
    if vars != [] {
      assert forall v :: 0 <= v < |vars[1..]| ==> vars[1..][v] == vars[v + 1];
      NothingToFill(lines, vars[1..]);
    }
  }
}
