/**
 * Text placeholder substitution (src/templating/placeholders.ts): every
 * `${KEY}` in a text is replaced by the value of KEY, entry after entry in
 * the order of the payload, skipping entries whose value is `undefined` or
 * empty. Keys are plain identifiers, so `${KEY}` is matched literally.
 */
module Placeholders {
  import opened Wrappers
  import opened Strings
  import opened TemplateTypes

  /** The payload's entries in `Object.entries` order: key and optional value. */
  type Context = seq<(string, Option<string>)>

  /** The marker `${KEY}` that stands for `key` in a text. */
  function PatternOf(key: string): (r: string)
    ensures |r| > 0
  {
    "${" + key + "}"
  }

  /** One step of the reduce: a truthy value replaces every `${KEY}`, anything else leaves the text alone. */
  function ApplyEntry(text: string, entry: (string, Option<string>)): string
  {
    if Truthy(entry.1) then ReplaceAll(text, PatternOf(entry.0), entry.1.value) else text
  }

  /** The reduce over the entries, each applied to the previous result. */
  function ApplyEntries(text: string, entries: Context): string
    decreases |entries|
  {
    if entries == [] then text else ApplyEntries(ApplyEntry(text, entries[0]), entries[1..])
  }

  /** `replacePlaceholders(text, payload)`: `undefined` and empty texts come back as they are. */
  function ReplacePlaceholders(text: Option<string>, payload: Context): (r: Option<string>)
    ensures r.Some? <==> text.Some?
    ensures !Truthy(text) ==> r == text
    ensures Truthy(text) ==> r == Some(ApplyEntries(text.value, payload))
  {
    if !Truthy(text) then text else Some(ApplyEntries(text.value, payload))
  }

  /** The entries with a truthy value, in order. */
  function TruthyEntries(entries: Context): (r: Context)
    ensures forall e :: e in r <==> e in entries && Truthy(e.1)
  {
    if entries == [] then []
    else if Truthy(entries[0].1) then [entries[0]] + TruthyEntries(entries[1..])
    else TruthyEntries(entries[1..])
  }

  /** Filtering distributes over concatenation, so the kept entries stay in payload order. */
  lemma {:induction false} TruthyEntriesAppend(a: Context, b: Context)
    ensures TruthyEntries(a + b) == TruthyEntries(a) + TruthyEntries(b)
    decreases |a|
  {
    if a == [] {
      assert a + b == b;
    } else {
      assert (a + b)[0] == a[0] && (a + b)[1..] == a[1..] + b;
      TruthyEntriesAppend(a[1..], b);
    }
  }

  /** The fold splits at any point: applying `a + b` is applying `a`, then `b` to its result. */
  lemma {:induction false} ApplyEntriesAppend(text: string, a: Context, b: Context)
    ensures ApplyEntries(text, a + b) == ApplyEntries(ApplyEntries(text, a), b)
    decreases |a|
  {
    if a != [] {
      assert (a + b)[0] == a[0] && (a + b)[1..] == a[1..] + b;
      var next := ApplyEntry(text, a[0]);
      ApplyEntriesAppend(next, a[1..], b);
      calc {
        ApplyEntries(text, a + b);
        ApplyEntries(next, a[1..] + b);
        ApplyEntries(ApplyEntries(next, a[1..]), b);
        ApplyEntries(ApplyEntries(text, a), b);
      }
    } else {
      assert a + b == b;
    }
  }

  /** Entries whose value is `undefined` or empty have no effect. */
  lemma {:induction false} FalsyEntriesIgnored(text: string, entries: Context)
    ensures ApplyEntries(text, entries) == ApplyEntries(text, TruthyEntries(entries))
    decreases |entries|
  {
    if entries != [] {
      FalsyEntriesIgnored(ApplyEntry(text, entries[0]), entries[1..]);
      if Truthy(entries[0].1) {
        var r := [entries[0]] + TruthyEntries(entries[1..]);
        assert r[0] == entries[0] && r[1..] == TruthyEntries(entries[1..]);
      }
    }
  }

  /** A text in which no key's `${KEY}` occurs comes back unchanged. */
  lemma {:induction false} NoMarkersUnchanged(text: string, entries: Context)
    requires forall e :: e in entries ==> !Contains(text, PatternOf(e.0))
    ensures ApplyEntries(text, entries) == text
    decreases |entries|
  {
    if entries != [] {
      assert entries[0] in entries;
      if Truthy(entries[0].1) {
        ReplaceAllAbsent(text, PatternOf(entries[0].0), entries[0].1.value);
      }
      assert forall e :: e in entries[1..] ==> e in entries;
      NoMarkersUnchanged(text, entries[1..]);
    }
  }

  /** No truthy value of the payload shares a letter with `w`. */
  ghost predicate ValuesApartFrom(entries: Context, w: string)
  {
    forall e :: e in entries && Truthy(e.1) ==> Disjoint(e.1.value, w)
  }

  /** No truthy value of the payload shares a letter with any marker of the payload. */
  ghost predicate ValuesApart(entries: Context)
  {
    forall f :: f in entries ==> ValuesApartFrom(entries, PatternOf(f.0))
  }

  /** Substitution creates no occurrence of a text `w` that no value shares a letter with. */
  lemma {:induction false} AbsentStaysAbsent(text: string, entries: Context, w: string)
    requires |w| > 0 && ValuesApartFrom(entries, w) && !Contains(text, w)
    ensures !Contains(ApplyEntries(text, entries), w)
    decreases |entries|
  {
    if entries != [] {
      var e := entries[0];
      assert e in entries;
      var next := ApplyEntry(text, e);
      if Truthy(e.1) && Contains(next, w) {
        ReplaceAllCreatesNone(text, PatternOf(e.0), e.1.value, w);
      }
      assert !Contains(next, w);
      assert forall f :: f in entries[1..] ==> f in entries;
      AbsentStaysAbsent(next, entries[1..], w);
    }
  }

  /**
   * When no value shares a letter with any marker, no `${KEY}` of an entry
   * with a truthy value is left in the result: every occurrence is replaced.
   */
  lemma {:induction false} EveryMarkerReplaced(text: string, entries: Context)
    requires ValuesApart(entries)
    ensures forall e :: e in entries && Truthy(e.1) ==> !Contains(ApplyEntries(text, entries), PatternOf(e.0))
    decreases |entries|
  {
    if entries != [] {
      var first := entries[0];
      assert first in entries;
      var next := ApplyEntry(text, first);
      var rest := entries[1..];
      assert forall f :: f in rest ==> f in entries;
      assert ValuesApart(rest);
      EveryMarkerReplaced(next, rest);
      if Truthy(first.1) {
        ReplaceAllRemovesEvery(text, PatternOf(first.0), first.1.value);
        AbsentStaysAbsent(next, rest, PatternOf(first.0));
      }
      forall e | e in entries && Truthy(e.1)
        ensures !Contains(ApplyEntries(text, entries), PatternOf(e.0))
      {
        if e != first {
          assert e in rest;
        }
      }
    }
  }

  /** `'Hi ${USER}'` with `{USER: 'Joe'}` gives `'Hi Joe'`. */
  lemma GreetingExample()
    ensures ReplacePlaceholders(Some("Hi ${USER}"), [("USER", Some("Joe"))]) == Some("Hi Joe")
  {
    var s := "Hi ${USER}";
    var pat := PatternOf("USER");
    assert pat == "${USER}";
    assert !StartsWith(s, pat) && !StartsWith(s[1..], pat) && !StartsWith(s[2..], pat);
    assert StartsWith(s[3..], pat) && s[3..][|pat|..] == [];
    assert ReplaceAll(s[3..], pat, "Joe") == "Joe";
    assert ReplaceAll(s[2..], pat, "Joe") == " Joe";
    assert ReplaceAll(s[1..], pat, "Joe") == "i Joe";
    assert ReplaceAll(s, pat, "Joe") == "Hi Joe";
  }
}
