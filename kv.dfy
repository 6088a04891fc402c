/**
 * The `list` endpoint of the key/value store (backend/controllers/kvController.js):
 * an optional glob pattern becomes a regular expression anchored at the start
 * of the key, and the stored records come back either as key/value pairs or as
 * bare keys.
 */
module KvList {
  import opened Wrappers
  import opened Text

  /** The character class of the first `replace`: `. + ^ $ { } ( ) | [ ] \`. */
  predicate IsMeta(c: char)
  {
    c == '.' || c == '+' || c == '^' || c == '$' || c == '{' || c == '}' ||
    c == '(' || c == ')' || c == '|' || c == '[' || c == ']' || c == '\\'
  }

  /** `pattern.replace(/[.+^${}()|[\]\\]/g, '\\$&')`: every metacharacter gets a backslash in front. */
  function EscapeMeta(s: string): string
  {
    if s == [] then []
    else (if IsMeta(s[0]) then ['\\', s[0]] else [s[0]]) + EscapeMeta(s[1..])
  }

  /** `escaped.replace(/\*\/g, '.*')`: every `*` becomes `.*`. */
  function ExpandStars(s: string): string
  {
    if s == [] then []
    else (if s[0] == '*' then ".*" else [s[0]]) + ExpandStars(s[1..])
  }

  /** `'^' + escaped.replace(...)`: the regular expression source built from a non-empty pattern. */
  function GlobToRegex(pattern: string): string
  {
    "^" + ExpandStars(EscapeMeta(pattern))
  }

  /** What one pattern character stands for in the regular expression. */
  function Token(c: char): string
  {
    if IsMeta(c) then ['\\', c] else if c == '*' then ".*" else [c]
  }

  /** The reference translation: each pattern character replaced by its token, in order. */
  function Translate(p: string): string
  {
    if p == [] then [] else Token(p[0]) + Translate(p[1..])
  }

  /** The number of metacharacters in `s`. */
  function CountMeta(s: string): nat
  {
    if s == [] then 0 else (if IsMeta(s[0]) then 1 else 0) + CountMeta(s[1..])
  }

  /** The number of `*` in `s`. */
  function CountStars(s: string): nat
  {
    if s == [] then 0 else (if s[0] == '*' then 1 else 0) + CountStars(s[1..])
  }

  function Prepend(c: char, rest: Option<string>): Option<string>
  {
    match rest
    case None => None
    case Some(s) => Some([c] + s)
  }

  /**
   * Reads a translated pattern back: `\m` for a metacharacter `m`, `.*` for a
   * star, any other character for itself. A bare metacharacter, a bare star
   * or a backslash before anything else is not something the translation emits.
   */
  function Decode(r: string): Option<string>
    decreases |r|
  {
    if r == [] then Some([])
    else if r[0] == '\\' then
      if |r| >= 2 && IsMeta(r[1]) then Prepend(r[1], Decode(r[2..])) else None
    else if r[0] == '.' then
      if |r| >= 2 && r[1] == '*' then Prepend('*', Decode(r[2..])) else None
    else if IsMeta(r[0]) || r[0] == '*' then None
    else Prepend(r[0], Decode(r[1..]))
  }

  lemma {:induction false} ExpandStarsConcat(a: string, b: string)
    ensures ExpandStars(a + b) == ExpandStars(a) + ExpandStars(b)
    decreases |a|
  {
    if a != [] {
      assert (a + b)[0] == a[0] && (a + b)[1..] == a[1..] + b;
      ExpandStarsConcat(a[1..], b);
      var t := if a[0] == '*' then ".*" else [a[0]];
      assert ExpandStars(a + b) == t + (ExpandStars(a[1..]) + ExpandStars(b));
    } else {
      assert a + b == b;
    }
  }

  /** The two chained global replacements act as one character-by-character translation. */
  lemma {:induction false} TwoPassesAreOnePass(p: string)
    ensures ExpandStars(EscapeMeta(p)) == Translate(p)
    decreases |p|
  {
    if p != [] {
      var head := if IsMeta(p[0]) then ['\\', p[0]] else [p[0]];
      ExpandStarsConcat(head, EscapeMeta(p[1..]));
      assert ExpandStars(head) == Token(p[0]) by {
        if IsMeta(p[0]) {
          assert head[1..] == [p[0]];
        }
      }
      TwoPassesAreOnePass(p[1..]);
    }
  }

  /** The translation works character by character: it distributes over concatenation. */
  lemma {:induction false} TranslateConcat(a: string, b: string)
    ensures Translate(a + b) == Translate(a) + Translate(b)
    decreases |a|
  {
    if a != [] {
      assert (a + b)[0] == a[0] && (a + b)[1..] == a[1..] + b;
      TranslateConcat(a[1..], b);
      assert Translate(a + b) == Token(a[0]) + (Translate(a[1..]) + Translate(b));
    } else {
      assert a + b == b;
    }
  }

  /** Decoding the translation of a pattern gives the pattern back. */
  lemma {:induction false} DecodeTranslate(p: string)
    ensures Decode(Translate(p)) == Some(p)
    decreases |p|
  {
    if p != [] {
      var t := Token(p[0]);
      var rest := Translate(p[1..]);
      DecodeTranslate(p[1..]);
      assert (t + rest)[|t|..] == rest;
      assert [p[0]] + p[1..] == p;
    }
  }

  /** Whatever decodes was produced by translating what it decodes to: the translation is onto its image. */
  lemma {:induction false} TranslateDecode(r: string)
    requires Decode(r).Some?
    ensures Translate(Decode(r).value) == r
    decreases |r|
  {
    if r != [] {
      var p := Decode(r).value;
      if r[0] == '\\' || r[0] == '.' {
        TranslateDecode(r[2..]);
        assert p[1..] == Decode(r[2..]).value;
        assert r == r[..2] + r[2..];
      } else {
        TranslateDecode(r[1..]);
        assert p[1..] == Decode(r[1..]).value;
        assert r == [r[0]] + r[1..];
      }
    }
  }

  /**
   * The regular expression starts with `^` and, after it, reads back as the
   * pattern: every metacharacter escaped by exactly one backslash, every `*`
   * turned into `.*`, every other character (`?` included) kept, all in order.
   */
  lemma GlobToRegexRoundTrip(pattern: string)
    ensures GlobToRegex(pattern)[0] == '^'
    ensures Decode(GlobToRegex(pattern)[1..]) == Some(pattern)
  {
    TwoPassesAreOnePass(pattern);
    DecodeTranslate(pattern);
    assert GlobToRegex(pattern)[1..] == Translate(pattern);
  }

  /** Two patterns give the same regular expression only if they are the same pattern. */
  lemma GlobToRegexInjective(p: string, q: string)
    requires GlobToRegex(p) == GlobToRegex(q)
    ensures p == q
  {
    GlobToRegexRoundTrip(p);
    GlobToRegexRoundTrip(q);
  }

  lemma {:induction false} TranslateLength(p: string)
    ensures |Translate(p)| == |p| + CountMeta(p) + CountStars(p)
    decreases |p|
  {
    if p != [] {
      TranslateLength(p[1..]);
    }
  }

  /** One character for `^`, one per pattern character, one more per escaped character and per star. */
  lemma GlobToRegexLength(pattern: string)
    ensures |GlobToRegex(pattern)| == 1 + |pattern| + CountMeta(pattern) + CountStars(pattern)
  {
    TwoPassesAreOnePass(pattern);
    TranslateLength(pattern);
  }

  /**
   * The expression is never anchored at the end: it ends in `$` only when the
   * pattern does, and then that `$` is escaped, so keys are matched by prefix.
   */
  lemma {:induction false} GlobToRegexNotEndAnchored(pattern: string)
    requires pattern != []
    ensures var r := GlobToRegex(pattern);
      |r| >= 2 && (r[|r| - 1] == '$' ==> pattern[|pattern| - 1] == '$' && r[|r| - 2] == '\\')
  {
    var init, last := pattern[..|pattern| - 1], pattern[|pattern| - 1];
    assert pattern == init + [last];
    TwoPassesAreOnePass(pattern);
    TranslateConcat(init, [last]);
    assert Translate([last]) == Token(last);
  }

  /**
   * What `new RegExp` leaves of the expression's syntax in the fragment the
   * translation emits (Annex B of ECMAScript 2015 and later, without flags):
   * after `^`, `$`, the start, or a quantifier already made lazy, there is
   * nothing to repeat; after a character, an escape `\x` or `.` there is an
   * atom; after an atom's `*`, `+` or `?` one more `?` may make it lazy.
   */
  datatype Repeat = NothingToRepeat | Atom | Quantified

  /** Scans `r` from state `st`; false where a quantifier has nothing to repeat or a backslash ends the source. */
  predicate QuantifiersFrom(r: string, st: Repeat)
    decreases |r|
  {
    if r == [] then true
    else if r[0] == '\\' then |r| >= 2 && QuantifiersFrom(r[2..], Atom)
    else if r[0] == '^' || r[0] == '$' then QuantifiersFrom(r[1..], NothingToRepeat)
    else if r[0] == '*' || r[0] == '+' then st == Atom && QuantifiersFrom(r[1..], Quantified)
    else if r[0] == '?' then
      if st == Atom then QuantifiersFrom(r[1..], Quantified)
      else st == Quantified && QuantifiersFrom(r[1..], NothingToRepeat)
    else QuantifiersFrom(r[1..], Atom)
  }

  /** `new RegExp(r)` accepts `r` (for sources built from characters, escapes, `.`, `^`, `$` and quantifiers). */
  predicate RegexAccepts(r: string) { QuantifiersFrom(r, NothingToRepeat) }

  /** No `?` follows a `??` or a `*?` anywhere in `p`. */
  predicate NoQuestionAfterQuantified(p: string)
  {
    forall i :: 0 <= i && i + 2 < |p| ==> !(p[i + 1] == '?' && p[i + 2] == '?' && (p[i] == '?' || p[i] == '*'))
  }

  /** What the rest of a pattern may start with, given what its translation so far leaves to repeat. */
  predicate HeadAllowed(st: Repeat, p: string)
  {
    (st == NothingToRepeat ==> p == [] || p[0] != '?') &&
    (st == Quantified ==> !(|p| >= 2 && p[0] == '?' && p[1] == '?'))
  }

  /**
   * The patterns whose expression compiles, stated on the pattern: it does not
   * start with `?`, and no `?` follows a `??` or a `*?`. The first `?` after a
   * character is a quantifier, a second one makes it lazy, and a third (or a
   * second after `*`) has nothing to repeat.
   */
  predicate CompilablePattern(p: string)
  {
    HeadAllowed(NothingToRepeat, p) && NoQuestionAfterQuantified(p)
  }

  lemma NoQuestionAfterQuantifiedCons(p: string)
    requires p != []
    ensures NoQuestionAfterQuantified(p) <==>
      NoQuestionAfterQuantified(p[1..]) && !(|p| >= 3 && p[1] == '?' && p[2] == '?' && (p[0] == '?' || p[0] == '*'))
  {
    var rest := p[1..];
    if NoQuestionAfterQuantified(rest) && !(|p| >= 3 && p[1] == '?' && p[2] == '?' && (p[0] == '?' || p[0] == '*')) {
      forall i | 0 <= i && i + 2 < |p| ensures !(p[i + 1] == '?' && p[i + 2] == '?' && (p[i] == '?' || p[i] == '*')) {
        if i > 0 {
          assert rest[i - 1] == p[i] && rest[i] == p[i + 1] && rest[i + 1] == p[i + 2];
        }
      }
    }
  }

  /** Scanning one pattern character's token: an escape or a plain character is an atom, `.*` a quantified one. */
  lemma QuantifiersOfToken(c: char, t: string, st: Repeat)
    ensures QuantifiersFrom(Token(c) + t, st) ==
      if IsMeta(c) then QuantifiersFrom(t, Atom)
      else if c == '*' then QuantifiersFrom(t, Quantified)
      else if c == '?' then
        if st == Atom then QuantifiersFrom(t, Quantified) else st == Quantified && QuantifiersFrom(t, NothingToRepeat)
      else QuantifiersFrom(t, Atom)
  {
    if IsMeta(c) {
      assert (Token(c) + t)[2..] == t;
    } else if c == '*' {
      assert (Token(c) + t)[1..] == "*" + t;
      assert ("*" + t)[1..] == t;
    } else {
      assert (Token(c) + t)[1..] == t;
    }
  }

  lemma {:induction false} QuantifiersOfTranslate(p: string, st: Repeat)
    ensures QuantifiersFrom(Translate(p), st) <==> HeadAllowed(st, p) && NoQuestionAfterQuantified(p)
    decreases |p|
  {
    if p != [] {
      QuantifiersOfTranslate(p[1..], Atom);
      QuantifiersOfTranslate(p[1..], Quantified);
      QuantifiersOfTranslate(p[1..], NothingToRepeat);
      QuantifiersOfToken(p[0], Translate(p[1..]), st);
      NoQuestionAfterQuantifiedCons(p);
    }
  }

  /** The expression built from a pattern compiles exactly when the pattern is compilable. */
  lemma GlobToRegexAccepted(pattern: string)
    ensures RegexAccepts(GlobToRegex(pattern)) <==> CompilablePattern(pattern)
  {
    TwoPassesAreOnePass(pattern);
    QuantifiersOfTranslate(pattern, NothingToRepeat);
    assert GlobToRegex(pattern)[1..] == Translate(pattern);
  }

  /** The `filter` of `list`, or the `SyntaxError` thrown while building it. */
  datatype Filter = Unfiltered | KeyRegex(source: string) | RegexSyntaxError

  /**
   * `filter`: no restriction for an absent or empty pattern; otherwise the
   * regular expression keys must match, unless `new RegExp` throws on it, which
   * sends the request to the `catch` that answers 500.
   */
  function ListFilter(pattern: Option<string>): (r: Filter)
    ensures r.Unfiltered? <==> IsFalsy(pattern)
    ensures r.RegexSyntaxError? <==> !IsFalsy(pattern) && !CompilablePattern(pattern.value)
    ensures r.KeyRegex? ==> |r.source| >= 1 && r.source[0] == '^' && Decode(r.source[1..]) == Some(pattern.value)
  {
    if IsFalsy(pattern) then Unfiltered
    else
      var source := GlobToRegex(pattern.value);
      GlobToRegexRoundTrip(pattern.value);
      GlobToRegexAccepted(pattern.value);
      if RegexAccepts(source) then KeyRegex(source) else RegexSyntaxError
  }

  /** Patterns whose `?` has nothing to repeat: one at the start, a third after a character, a second after `*`. */
  lemma NothingToRepeatExamples()
    ensures ListFilter(Some("?abc")) == RegexSyntaxError
    ensures ListFilter(Some("a???")) == RegexSyntaxError
    ensures ListFilter(Some("*??")) == RegexSyntaxError
  {
    var p, q, r := "?abc", "a???", "*??";
    assert p[0] == '?';
    assert q[1] == '?' && q[2] == '?' && q[3] == '?';
    assert r[0] == '*' && r[1] == '?' && r[2] == '?';
  }

  /** A pattern that compiles is listed by its expression. */
  lemma CompilableFilter(p: string)
    requires p != [] && CompilablePattern(p)
    ensures ListFilter(Some(p)) == KeyRegex(GlobToRegex(p))
  {
    GlobToRegexAccepted(p);
  }

  /** Two neighbours of those that compile: a lazy `??` after a character and a lazy `*?`. */
  lemma LazyQuantifierExamples()
    ensures ListFilter(Some("a??")) == KeyRegex("^a??")
    ensures ListFilter(Some("*?")) == KeyRegex("^.*?")
  {
    var p, q := "a??", "*?";
    assert p[0] == 'a';
    CompilableFilter(p);
    TwoPassesAreOnePass(p);
    assert Translate(p) == "a??" by {
      assert p[1..] == "??" && p[1..][1..] == "?" && p[1..][1..][1..] == [];
    }
    assert q[0] == '*';
    CompilableFilter(q);
    TwoPassesAreOnePass(q);
    assert Translate(q) == ".*?" by {
      assert q[1..] == "?" && q[1..][1..] == [];
    }
  }

  /** A stored document: Mongo's `_id` besides the schema's `key` and `value`. */
  datatype Record = Record(id: nat, key: string, value: string)

  /** `{ key: i.key, value: i.value }`. */
  datatype Pair = Pair(key: string, value: string)

  /** The JSON body of the response: pairs when values were asked for, keys otherwise. */
  datatype Listing = Pairs(pairs: seq<Pair>) | Keys(keys: seq<string>)

  /** `req.query.returnValues === 'true'`: only that exact string asks for values. */
  predicate WantsValues(returnValues: Option<string>) { returnValues == Some("true") }

  /** The projection of the found records into the response body. */
  function ListResponse(items: seq<Record>, returnValues: Option<string>): (r: Listing)
    ensures r.Pairs? <==> WantsValues(returnValues)
  {
    if WantsValues(returnValues) then Pairs(seq(|items|, i requires 0 <= i < |items| => Pair(items[i].key, items[i].value)))
    else Keys(seq(|items|, i requires 0 <= i < |items| => items[i].key))
  }

  /** The keys a listing shows, in order. */
  function ListedKeys(l: Listing): seq<string>
  {
    match l
    case Pairs(pairs) => seq(|pairs|, i requires 0 <= i < |pairs| => pairs[i].key)
    case Keys(keys) => keys
  }

  /**
   * Either way, one entry per record in the order the store returned them, with
   * the record's key; with values asked for, each entry carries the record's value.
   */
  lemma ListResponseSpec(items: seq<Record>, returnValues: Option<string>)
    ensures |ListedKeys(ListResponse(items, returnValues))| == |items|
    ensures forall i :: 0 <= i < |items| ==> ListedKeys(ListResponse(items, returnValues))[i] == items[i].key
    ensures WantsValues(returnValues) ==>
      forall i :: 0 <= i < |items| ==> ListResponse(items, returnValues).pairs[i].value == items[i].value
  {
  }

  /** Asking for values changes the shape of the response, never which keys it lists or their order. */
  lemma ListedKeysIgnoreReturnValues(items: seq<Record>, a: Option<string>, b: Option<string>)
    ensures ListedKeys(ListResponse(items, a)) == ListedKeys(ListResponse(items, b))
  {
    ListResponseSpec(items, a);
    ListResponseSpec(items, b);
  }
}
