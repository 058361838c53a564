/** The pure parts of the main component (src/App.tsx): the screens, the
    remaining-time calculation, the `MM:SS` countdown text, the
    section-expansion map, the star-rating fill, the category icon and the
    deficiency labels. */
module AppView {
  import opened Strings

  /** The seven screens of `AppState`. */
  datatype AppState = Landing | Upload | Preview | Payment | PostPaymentAuth | Plan | Progress

  const PREVIEW_SECONDS := 3600

  // ---------------------------------------------------------------------------
  // Remaining time

  /** `Math.max(0, Math.floor((expiresAt - now) / 1000))` on millisecond
      timestamps. Dafny's `/` by a positive divisor rounds down, as
      `Math.floor` does, also for a negative difference. */
  function RemainingSeconds(expiresMs: int, nowMs: int): (r: nat)
    ensures r == 0 <==> expiresMs - nowMs < 1000
    ensures expiresMs - nowMs >= 0 ==> r * 1000 <= expiresMs - nowMs < (r + 1) * 1000
  {
    var d := (expiresMs - nowMs) / 1000;
    if d < 0 then 0 else d
  }

  /** Time only runs down: a later clock never shows more time left. */
  lemma RemainingMonotone(expiresMs: int, earlier: int, later: int)
    requires earlier <= later
    ensures RemainingSeconds(expiresMs, later) <= RemainingSeconds(expiresMs, earlier)
  {
  }

  /** One second later the countdown shows one second less, and it stays at
      zero once there. */
  lemma RemainingAfterOneSecond(expiresMs: int, nowMs: int)
    ensures RemainingSeconds(expiresMs, nowMs + 1000) ==
      if RemainingSeconds(expiresMs, nowMs) == 0 then 0 else RemainingSeconds(expiresMs, nowMs) - 1
  {
    var d := expiresMs - nowMs;
    assert (d - 1000) / 1000 == d / 1000 - 1;
  }

  // ---------------------------------------------------------------------------
  // Countdown text

  /** `formatCountdownTime`: minutes and seconds, each padded to two digits. */
  function FormatCountdownTime(seconds: nat): (r: string)
    ensures ':' in r
  {
    var r := PadStart2(NatToString(seconds / 60)) + ":" + PadStart2(NatToString(seconds % 60));
    assert r[|PadStart2(NatToString(seconds / 60))|] == ':';
    r
  }

  /** A number below 100 pads to exactly two digits that read back as it. */
  lemma {:induction false} TwoDigits(n: nat)
    requires n < 100
    ensures |PadStart2(NatToString(n))| == 2
    ensures AllDigits(PadStart2(NatToString(n)))
    ensures DecimalValue(PadStart2(NatToString(n))) == n
  {
    var s := NatToString(n);
    NatToStringLength(n);
    NatToStringValue(n);
    if n < 10 {
      assert PadStart2(s) == "0" + s;
      LeadingZeroValue(s);
    } else {
      assert PadStart2(s) == s;
    }
  }

  /** Below 100 minutes the text is `MM:SS`: five characters, a colon in the
      middle, seconds below 60, and 60 * MM + SS gives back the count. */
  lemma {:induction false} CountdownTextReadsBack(seconds: nat)
    requires seconds < 6000
    ensures var r := FormatCountdownTime(seconds);
      && |r| == 5 && r[2] == ':'
      && AllDigits(r[..2]) && AllDigits(r[3..])
      && DecimalValue(r[3..]) < 60
      && 60 * DecimalValue(r[..2]) + DecimalValue(r[3..]) == seconds
  {
    var mm := PadStart2(NatToString(seconds / 60));
    var ss := PadStart2(NatToString(seconds % 60));
    TwoDigits(seconds / 60);
    TwoDigits(seconds % 60);
    var r := FormatCountdownTime(seconds);
    assert r == mm + ":" + ss;
    assert r[..2] == mm;
    assert r[3..] == ss;
  }

  /** From 100 minutes on the minutes take three digits or more. */
  lemma {:induction false} LongCountdownIsWider(seconds: nat)
    requires seconds >= 6000
    ensures |FormatCountdownTime(seconds)| > 5
  {
    NatToStringLength(seconds / 60);
    NatToStringLength(seconds % 60);
  }

  // ---------------------------------------------------------------------------
  // Expandable sections

  /** `!!expandedSections[k]`: a key that was never set reads as collapsed. */
  predicate IsExpanded(sections: map<string, bool>, key: string) {
    key in sections && sections[key]
  }

  /** `toggleSection`: `{...prev, [k]: !prev[k]}`. */
  function Toggled(sections: map<string, bool>, key: string): (r: map<string, bool>)
    ensures IsExpanded(r, key) == !IsExpanded(sections, key)
    ensures forall k :: k != key ==> (k in r <==> k in sections) && (k in r ==> r[k] == sections[k])
  {
    sections[key := !IsExpanded(sections, key)]
  }

  /** Toggling a section twice shows every section as before. */
  lemma ToggleTwice(sections: map<string, bool>, key: string)
    ensures forall k :: IsExpanded(Toggled(Toggled(sections, key), key), k) == IsExpanded(sections, k)
  {
    var once := Toggled(sections, key);
    var twice := Toggled(once, key);
    forall k ensures IsExpanded(twice, k) == IsExpanded(sections, k) {
      if k != key {
        assert IsExpanded(twice, k) == IsExpanded(once, k);
      }
    }
  }

  // ---------------------------------------------------------------------------
  // Star rating

  /** `[...Array(n)].map((_, i) => i < rating)` for the first `n` stars. */
  function StarFills(n: nat, rating: int): (r: seq<bool>)
    ensures |r| == n
    ensures forall i :: 0 <= i < n ==> (r[i] <==> i < rating)
  {
    if n == 0 then [] else StarFills(n - 1, rating) + [n - 1 < rating]
  }

  function CountFilled(fills: seq<bool>): nat {
    if |fills| == 0 then 0 else CountFilled(fills[..|fills| - 1]) + (if fills[|fills| - 1] then 1 else 0)
  }

  /** Of the five stars, the rating clamped to 0..5 are filled. */
  lemma {:induction false} FilledStars(n: nat, rating: int)
    ensures CountFilled(StarFills(n, rating)) ==
      if rating <= 0 then 0 else if rating >= n then n else rating
  {
    if n > 0 {
      var r := StarFills(n, rating);
      var prev := StarFills(n - 1, rating);
      assert r == prev + [n - 1 < rating];
      assert r[..|r| - 1] == prev;
      assert CountFilled(r) == CountFilled(prev) + (if n - 1 < rating then 1 else 0);
      FilledStars(n - 1, rating);
    }
  }

  // ---------------------------------------------------------------------------
  // Category icons

  datatype Icon = SparklesIcon | DropletsIcon | HeartIcon | ZapIcon | MoonIcon | StarIcon

  /** `getIconForCategory`: chosen by the lower-cased category. */
  function IconForCategory(category: string): (icon: Icon)
    ensures icon == StarIcon <==> AsciiLower(category) !in {"age", "skin", "stress", "energy", "sleep"}
    ensures icon == SparklesIcon <==> AsciiLower(category) == "age"
    ensures icon == DropletsIcon <==> AsciiLower(category) == "skin"
    ensures icon == HeartIcon <==> AsciiLower(category) == "stress"
    ensures icon == ZapIcon <==> AsciiLower(category) == "energy"
    ensures icon == MoonIcon <==> AsciiLower(category) == "sleep"
  {
    var c := AsciiLower(category);
    if c == "age" then SparklesIcon
    else if c == "skin" then DropletsIcon
    else if c == "stress" then HeartIcon
    else if c == "energy" then ZapIcon
    else if c == "sleep" then MoonIcon
    else StarIcon
  }

  /** The category match ignores case. */
  lemma IconIgnoresCase()
    ensures IconForCategory("Skin") == DropletsIcon
    ensures IconForCategory("SLEEP") == MoonIcon
  {
    assert AsciiLower("Skin") == "skin";
    assert AsciiLower("SLEEP") == "sleep";
  }

  // ---------------------------------------------------------------------------
  // Deficiency labels

  const NUTRIENT_FLAGS := "nutrient_flags"

  /** The deficiency keys shown as cards: all but `nutrient_flags`, in order. */
  function DeficiencyKeys(keys: seq<string>): (r: seq<string>)
    ensures forall k :: k in r <==> k in keys && k != NUTRIENT_FLAGS
  {
    if |keys| == 0 then []
    else
      var rest := DeficiencyKeys(keys[1..]);
      assert forall k :: k in keys <==> k == keys[0] || k in keys[1..];
      if keys[0] == NUTRIENT_FLAGS then rest else [keys[0]] + rest
  }

  /** The filter keeps the order of the keys: filtering a concatenation is
      concatenating the filtered parts. */
  lemma {:induction false} DeficiencyKeysAppend(a: seq<string>, b: seq<string>)
    ensures DeficiencyKeys(a + b) == DeficiencyKeys(a) + DeficiencyKeys(b)
  {
    if |a| == 0 {
      assert a + b == b;
    } else {
      assert (a + b)[0] == a[0];
      assert (a + b)[1..] == a[1..] + b;
      DeficiencyKeysAppend(a[1..], b);
    }
  }

  /** A card's title: `key.replace('_', ' ')`. */
  function DeficiencyLabel(key: string): (r: string)
    ensures '_' !in key ==> r == key
    ensures |r| == |key|
  {
    ReplaceFirst(key, "_", " ")
  }

  /** Only the first underscore becomes a space: whatever follows it,
      later underscores included, is kept as it is. */
  lemma {:induction false} LabelReplacesFirstUnderscoreOnly(head: string, tail: string)
    requires '_' !in head
    ensures DeficiencyLabel(head + "_" + tail) == head + " " + tail
  {
    var s := head + "_" + tail;
    assert OccursAt(s, "_", |head|) by { assert s[|head|..|head| + 1] == "_"; }
    forall j | 0 <= j < |head| ensures !OccursAt(s, "_", j) {
      assert s[j..j + 1] == [head[j]];
    }
    var i := IndexOf(s, "_");
    assert i.Some?;
    assert i.value == |head|;
    assert s[..|head|] == head;
    assert s[|head| + 1..] == tail;
  }
}
