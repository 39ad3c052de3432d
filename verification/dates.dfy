/**
 * Publication-date resolution (internal/utils/date.go and the per-item date
 * chain repeated in internal/feeds/feeds.go and main.go).
 *
 * time.Parse and time.Format are library calls and stay uninterpreted: they
 * are the `parse` and `format` fields of a `TimeLib` value.
 */
module Dates {

  import opened Wrappers
  import opened Models

  // Go's time package layout constants.
  const RFC1123Z: string := "Mon, 02 Jan 2006 15:04:05 -0700"
  const RFC1123: string := "Mon, 02 Jan 2006 15:04:05 MST"
  const RFC822Z: string := "02 Jan 06 15:04 -0700"
  const RFC822: string := "02 Jan 06 15:04 MST"
  const RFC3339: string := "2006-01-02T15:04:05Z07:00"

  /** The layouts ParseDate tries, in order. */
  const Layouts: seq<string> := [
    RFC1123Z,
    RFC1123,
    RFC822Z,
    RFC822,
    RFC3339,
    "Mon, 2 Jan 2006 15:04:05 -0700",
    "Mon, 2 Jan 2006 15:04:05 MST",
    "2006-01-02T15:04:05-0700",
    "2006-01-02T15:04:05Z07:00",
    "2006-01-02 15:04:05"
  ]

  /** The layout every resolved timestamp is displayed with. */
  const DisplayLayout: string := "Jan 2, 2006 15:04"

  /** Go's `(time.Time, error)` result of ParseDate. */
  datatype Parsed = Parsed(time: int, err: Option<string>)

  /** Layout `k` is the first one in `layouts` that accepts `s`. */
  predicate FirstAccepting(layouts: seq<string>, s: string, parse: (string, string) -> Option<int>, k: int)
  {
    && 0 <= k < |layouts|
    && parse(layouts[k], s).Some?
    && forall j :: 0 <= j < k ==> parse(layouts[j], s).None?
  }

  /** The parse by the first layout that accepts `s`; later layouts are never consulted. */
  function TryLayouts(layouts: seq<string>, s: string, parse: (string, string) -> Option<int>): (r: Option<int>)
    ensures r.None? <==> forall k :: 0 <= k < |layouts| ==> parse(layouts[k], s).None?
    ensures forall k :: FirstAccepting(layouts, s, parse, k) ==> r == parse(layouts[k], s)
  {
    if layouts == [] then None
    else match parse(layouts[0], s)
      case Some(t) => Some(t)
      case None =>
        var r := TryLayouts(layouts[1..], s, parse);
        assert forall k :: FirstAccepting(layouts, s, parse, k) ==> FirstAccepting(layouts[1..], s, parse, k - 1);
        r
  }

  /**
   * ParseDate (date.go:9-31): never reports an error; the time is the parse by
   * the first layout in `Layouts` that accepts `s`, or the zero time when none does.
   */
  function ParseDate(s: string, lib: TimeLib): (r: Parsed)
    ensures r.err == None
    ensures forall k :: FirstAccepting(Layouts, s, lib.parse, k) ==> r.time == lib.parse(Layouts[k], s).value
    ensures (forall k :: 0 <= k < |Layouts| ==> lib.parse(Layouts[k], s).None?) ==> r.time == ZeroTime
  {
    match TryLayouts(Layouts, s, lib.parse)
    case Some(t) => Parsed(t, None)
    case None => Parsed(ZeroTime, None)
  }

  /**
   * Dropping a layout that cannot win (it rejects `s`, or an earlier layout
   * accepts `s`) does not change the outcome of the search.
   */
  lemma {:induction false} DropLosingLayout(layouts: seq<string>, s: string, parse: (string, string) -> Option<int>, i: nat)
    requires i < |layouts|
    requires parse(layouts[i], s).None? || exists j :: 0 <= j < i && parse(layouts[j], s).Some?
    ensures TryLayouts(layouts, s, parse) == TryLayouts(layouts[..i] + layouts[i + 1..], s, parse)
  {
    var dropped := layouts[..i] + layouts[i + 1..];
    if i == 0 {
      assert dropped == layouts[1..];
    } else {
      assert dropped[0] == layouts[0];
      assert dropped[1..] == layouts[1..][..i - 1] + layouts[1..][i..];
      if parse(layouts[0], s).None? {
        if exists j :: 0 <= j < i && parse(layouts[j], s).Some? {
          var j :| 0 <= j < i && parse(layouts[j], s).Some?;
          assert parse(layouts[1..][j - 1], s).Some?;
        }
        DropLosingLayout(layouts[1..], s, parse, i - 1);
      }
    }
  }

  /**
   * The ninth layout repeats RFC3339, the fifth: it can never be the first to
   * accept a string, so ParseDate gives the same result without it.
   */
  lemma DuplicateLayoutNeverDecides(s: string, lib: TimeLib)
    ensures Layouts[8] == Layouts[4]
    ensures !FirstAccepting(Layouts, s, lib.parse, 8)
    ensures TryLayouts(Layouts, s, lib.parse) == TryLayouts(Layouts[..8] + Layouts[9..], s, lib.parse)
  {
    assert Layouts[8] == Layouts[4];
    if lib.parse(Layouts[8], s).Some? {
      assert lib.parse(Layouts[4], s).Some?;
    }
    DropLosingLayout(Layouts, s, lib.parse, 8);
  }

  /** An item carries at least one date representation. */
  predicate HasDate(raw: RawItem)
  {
    raw.publishedParsed.Some? || raw.updatedParsed.Some? || raw.published != "" || raw.updated != ""
  }

  /**
   * The timestamp and display string of an item (feeds.go:54-79): a pre-parsed
   * published time, else a pre-parsed updated time, else the raw published
   * string, else the raw updated string. The branch that would display a raw
   * string verbatim is kept, but ParseDate never reports an error, so every
   * dated item is displayed as its formatted timestamp.
   */
  function ResolveDate(raw: RawItem, lib: TimeLib): (r: (int, string))
    ensures HasDate(raw) ==> r.1 == lib.format(r.0, DisplayLayout)
    ensures !HasDate(raw) ==> r == (ZeroTime, "")
    ensures raw.publishedParsed.Some? ==> r.0 == raw.publishedParsed.value
    ensures raw.publishedParsed.None? && raw.updatedParsed.Some? ==> r.0 == raw.updatedParsed.value
  {
    if raw.publishedParsed.Some? then
      var t := raw.publishedParsed.value;
      (t, lib.format(t, DisplayLayout))
    else if raw.updatedParsed.Some? then
      var t := raw.updatedParsed.value;
      (t, lib.format(t, DisplayLayout))
    else if raw.published != "" then
      var parsed := ParseDate(raw.published, lib);
      if parsed.err == None then (parsed.time, lib.format(parsed.time, DisplayLayout))
      else (ZeroTime, raw.published)
    else if raw.updated != "" then
      var parsed := ParseDate(raw.updated, lib);
      if parsed.err == None then (parsed.time, lib.format(parsed.time, DisplayLayout))
      else (ZeroTime, raw.updated)
    else (ZeroTime, "")
  }

  /**
   * A raw date string that no layout accepts resolves to the zero time, and it
   * is displayed as the formatted zero time, not as the raw string.
   */
  lemma UnparseableDateIsZero(raw: RawItem, lib: TimeLib)
    requires raw.publishedParsed.None? && raw.updatedParsed.None?
    requires raw.published != "" || raw.updated != ""
    requires var s := if raw.published != "" then raw.published else raw.updated;
             forall k :: 0 <= k < |Layouts| ==> lib.parse(Layouts[k], s).None?
    ensures ResolveDate(raw, lib) == (ZeroTime, lib.format(ZeroTime, DisplayLayout))
  {
  }

  /** A raw string that some layout accepts resolves to that first layout's parse. */
  lemma RawDateUsesFirstLayout(raw: RawItem, lib: TimeLib, k: int)
    requires raw.publishedParsed.None? && raw.updatedParsed.None?
    requires raw.published != "" || raw.updated != ""
    requires FirstAccepting(Layouts, if raw.published != "" then raw.published else raw.updated, lib.parse, k)
    ensures ResolveDate(raw, lib).0 == lib.parse(Layouts[k], if raw.published != "" then raw.published else raw.updated).value
  {
  }
}
