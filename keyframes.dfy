/** The keyframe summary built at the start of `Timewave.build`
    (timewave.js:37-61) and the vertical scale derived from it
    (timewave.js:76-80). */
module Keyframes {
  import opened Numberize
  import MinMax

  /** One own enumerable key of a keyframe object with its value, in the
      order `for (let propertyName in keyframe)` visits them. */
  datatype Entry = Entry(name: string, text: string)
  type Keyframe = seq<Entry>

  /** The `{min, max}` record kept per animated property. */
  datatype Range = Range(min: real, max: real)

  /** The `properties` dictionary: its keys in insertion order (the order
      `Object.keys` and `for..in` report later) and each key's record. */
  datatype Table = Table(names: seq<string>, ranges: map<string, Range>)

  const Empty := Table([], map[])

  /** Keys of a keyframe object that describe the keyframe, not a property. */
  predicate Reserved(name: string) {
    name == "computedOffset" || name == "offset" || name == "easing"
  }

  /** `Timewave.numberize(text)`: the letter run is cut, then `number`
      stands for JavaScript's `Number(...)` on what is left. */
  function Numberized(number: string -> real, text: string): real {
    number(StripLetters(text))
  }

  /** The table is a dictionary: every key once in `names`, `names` and the
      map agree on the keys, and each record is an interval. */
  ghost predicate WellFormed(t: Table) {
    (forall a, b :: 0 <= a < b < |t.names| ==> t.names[a] != t.names[b]) &&
    (forall name :: name in t.ranges <==> name in t.names) &&
    (forall name :: name in t.ranges ==> t.ranges[name].min <= t.ranges[name].max)
  }

  /** One pass of the inner loop body (timewave.js:41-59) on the value
      `v` already numberized. */
  function Record(t: Table, name: string, v: real): Table {
    if Reserved(name) then t
    else if name in t.ranges then
      var r := t.ranges[name];
      Table(t.names, t.ranges[name := Range(MinMax.Min(r.min, v), MinMax.Max(r.max, v))])
    else
      Table(t.names + [name], t.ranges[name := Range(v, v)])
  }

  /** The table `t` after visiting `entries` in order. */
  function RecordAll(number: string -> real, t: Table, entries: seq<Entry>): Table
    decreases |entries|
  {
    if entries == [] then t
    else
      var e := entries[|entries| - 1];
      Record(RecordAll(number, t, entries[..|entries| - 1]), e.name, Numberized(number, e.text))
  }

  /** All entries of all keyframes, keyframe after keyframe. */
  function Flatten(keyframes: seq<Keyframe>): seq<Entry>
    decreases |keyframes|
  {
    if keyframes == [] then []
    else Flatten(keyframes[..|keyframes| - 1]) + keyframes[|keyframes| - 1]
  }

  /** What the two nested loops of timewave.js:39-61 leave in `properties`. */
  function Summarize(number: string -> real, keyframes: seq<Keyframe>): Table {
    RecordAll(number, Empty, Flatten(keyframes))
  }

  /** Visiting one more entry is one more `Record`. */
  lemma RecordAllSnoc(number: string -> real, t: Table, entries: seq<Entry>, e: Entry)
    ensures RecordAll(number, t, entries + [e]) ==
            Record(RecordAll(number, t, entries), e.name, Numberized(number, e.text))
  {
  }

  /** Visiting `a` then `b` is visiting `a + b`. */
  lemma {:induction false} RecordAllAppend(number: string -> real, t: Table, a: seq<Entry>, b: seq<Entry>)
    ensures RecordAll(number, t, a + b) == RecordAll(number, RecordAll(number, t, a), b)
    decreases |b|
  {
    if b == [] {
      assert a + b == a;
    } else {
      var init, e := b[..|b| - 1], b[|b| - 1];
      assert b == init + [e];
      assert a + b == (a + init) + [e];
      RecordAllAppend(number, t, a, init);
      RecordAllSnoc(number, t, a + init, e);
      RecordAllSnoc(number, RecordAll(number, t, a), init, e);
    }
  }

  /** One more keyframe appends its entries. */
  lemma FlattenSnoc(keyframes: seq<Keyframe>, k: nat)
    requires k < |keyframes|
    ensures Flatten(keyframes[..k + 1]) == Flatten(keyframes[..k]) + keyframes[k]
  {
    assert keyframes[..k + 1][..k] == keyframes[..k];
  }

  /** The body of the inner loop (timewave.js:41-59): skip a reserved key,
      otherwise create the property's record on first sighting and then set
      or widen its bounds. */
  method Visit(properties: Table, propertyName: string, text: string, number: string -> real)
    returns (updated: Table)
    ensures updated == Record(properties, propertyName, Numberized(number, text))
  {
    updated := properties;
    if Reserved(propertyName) {
      return;
    }
    var seen := propertyName in properties.ranges;
    var names := if seen then properties.names else properties.names + [propertyName];
    var value := Numberized(number, text);
    var range;
    if !seen {
      range := Range(value, value);
    } else {
      var property := properties.ranges[propertyName];
      range := Range(MinMax.Min(property.min, value), MinMax.Max(property.max, value));
    }
    updated := Table(names, properties.ranges[propertyName := range]);
  }

  /** `for (let propertyName in keyframe)` (timewave.js:40-60). */
  method VisitKeyframe(properties: Table, keyframe: Keyframe, number: string -> real)
    returns (updated: Table)
    ensures updated == RecordAll(number, properties, keyframe)
  {
    updated := properties;
    var i := 0;
    while i < |keyframe|
      invariant 0 <= i <= |keyframe|
      invariant updated == RecordAll(number, properties, keyframe[..i])
    {
      updated := Visit(updated, keyframe[i].name, keyframe[i].text, number);
      RecordAllSnoc(number, properties, keyframe[..i], keyframe[i]);
      assert keyframe[..i + 1] == keyframe[..i] + [keyframe[i]];
      i := i + 1;
    }
    assert keyframe[..i] == keyframe;
  }

  /** `keyframes.forEach(...)` (timewave.js:38-61), building `properties`
      from `{}`. */
  method BuildProperties(keyframes: seq<Keyframe>, number: string -> real) returns (properties: Table)
    ensures properties == Summarize(number, keyframes)
  {
    properties := Empty;
    var k := 0;
    while k < |keyframes|
      invariant 0 <= k <= |keyframes|
      invariant properties == RecordAll(number, Empty, Flatten(keyframes[..k]))
    {
      properties := VisitKeyframe(properties, keyframes[k], number);
      FlattenSnoc(keyframes, k);
      RecordAllAppend(number, Empty, Flatten(keyframes[..k]), keyframes[k]);
      k := k + 1;
    }
    assert keyframes[..k] == keyframes;
  }

  /** Some entry among `entries` has key `name`. */
  ghost predicate Mentions(entries: seq<Entry>, name: string) {
    exists e :: e in entries && e.name == name
  }

  /** `r` is exactly the least and the greatest numberized value that
      `entries` give for `name`. */
  ghost predicate IsRangeOf(number: string -> real, entries: seq<Entry>, name: string, r: Range) {
    (forall e :: e in entries && e.name == name ==> r.min <= Numberized(number, e.text) <= r.max) &&
    (exists e :: e in entries && e.name == name && Numberized(number, e.text) == r.min) &&
    (exists e :: e in entries && e.name == name && Numberized(number, e.text) == r.max)
  }

  /** Visiting any sequence of entries keeps the table a dictionary, keeps
      out the reserved keys and takes in every other key it sees. */
  lemma {:induction false} RecordAllKeys(number: string -> real, entries: seq<Entry>)
    ensures WellFormed(RecordAll(number, Empty, entries))
    ensures forall name :: name in RecordAll(number, Empty, entries).ranges <==>
                             !Reserved(name) && Mentions(entries, name)
    decreases |entries|
  {
    if entries != [] {
      var init, e := entries[..|entries| - 1], entries[|entries| - 1];
      assert entries == init + [e];
      RecordAllKeys(number, init);
      var t := RecordAll(number, Empty, init);
      assert e.name !in t.ranges ==> e.name !in t.names;
      forall name ensures Mentions(entries, name) <==> Mentions(init, name) || name == e.name {
        if Mentions(entries, name) {
          var x :| x in entries && x.name == name;
          assert x in init || x == e;
        }
        if Mentions(init, name) {
          var x :| x in init && x.name == name;
          assert x in entries;
        }
      }
    }
  }

  /** One visit keeps the record of `name` equal to the range of the values
      seen so far: the first sighting sets both ends, a later one widens. */
  lemma RecordRangeAt(number: string -> real, init: seq<Entry>, t: Table, e: Entry, name: string)
    requires name in t.ranges <==> !Reserved(name) && Mentions(init, name)
    requires name in t.ranges ==> IsRangeOf(number, init, name, t.ranges[name])
    requires name in Record(t, e.name, Numberized(number, e.text)).ranges
    ensures IsRangeOf(number, init + [e], name,
                      Record(t, e.name, Numberized(number, e.text)).ranges[name])
  {
  }

  /** Every record of the table is the minimum and maximum of the values
      its key was seen with: the first sighting sets both, later ones widen. */
  lemma {:induction false} RecordAllRanges(number: string -> real, entries: seq<Entry>)
    ensures forall name :: name in RecordAll(number, Empty, entries).ranges ==>
                             IsRangeOf(number, entries, name, RecordAll(number, Empty, entries).ranges[name])
    decreases |entries|
  {
    if entries != [] {
      var init, e := entries[..|entries| - 1], entries[|entries| - 1];
      assert entries == init + [e];
      RecordAllRanges(number, init);
      RecordAllKeys(number, init);
      var t := RecordAll(number, Empty, init);
      forall name | name in RecordAll(number, Empty, entries).ranges
        ensures IsRangeOf(number, entries, name, RecordAll(number, Empty, entries).ranges[name])
      {
        RecordRangeAt(number, init, t, e, name);
      }
    }
  }

  /** An entry is in the flattened list exactly when some keyframe has it. */
  lemma {:induction false} FlattenMembers(keyframes: seq<Keyframe>)
    ensures forall e :: e in Flatten(keyframes) <==> exists kf :: kf in keyframes && e in kf
    decreases |keyframes|
  {
    if keyframes != [] {
      var init, last := keyframes[..|keyframes| - 1], keyframes[|keyframes| - 1];
      assert keyframes == init + [last];
      FlattenMembers(init);
      forall e ensures e in Flatten(keyframes) <==> exists kf :: kf in keyframes && e in kf {
        if e in Flatten(keyframes) {
          if e in last {
            assert last in keyframes;
          } else {
            var kf :| kf in init && e in kf;
            assert kf in keyframes;
          }
        }
        if exists kf :: kf in keyframes && e in kf {
          var kf :| kf in keyframes && e in kf;
          assert kf in init || kf == last;
        }
      }
    }
  }

  /** Some keyframe has an entry with key `name`. */
  ghost predicate Declared(keyframes: seq<Keyframe>, name: string) {
    exists kf, e :: kf in keyframes && e in kf && e.name == name
  }

  /** `r` is the least and greatest numberized value of `name` over the
      keyframes that contain it. */
  ghost predicate IsRangeOver(number: string -> real, keyframes: seq<Keyframe>, name: string, r: Range) {
    (forall kf, e :: kf in keyframes && e in kf && e.name == name ==>
       r.min <= Numberized(number, e.text) <= r.max) &&
    (exists kf, e :: kf in keyframes && e in kf && e.name == name && Numberized(number, e.text) == r.min) &&
    (exists kf, e :: kf in keyframes && e in kf && e.name == name && Numberized(number, e.text) == r.max)
  }

  /** The summary of timewave.js:39-61 in terms of the keyframes: the
      reserved keys never become properties, every other key seen does,
      each exactly once, and each property's record holds the minimum and
      maximum of its values, so `min <= max`. */
  lemma SummarizeSpec(number: string -> real, keyframes: seq<Keyframe>)
    ensures WellFormed(Summarize(number, keyframes))
    ensures forall name :: name in Summarize(number, keyframes).ranges <==>
                             !Reserved(name) && Declared(keyframes, name)
    ensures forall name :: name in Summarize(number, keyframes).ranges ==>
                             IsRangeOver(number, keyframes, name, Summarize(number, keyframes).ranges[name])
  {
    var entries := Flatten(keyframes);
    var t := Summarize(number, keyframes);
    RecordAllKeys(number, entries);
    RecordAllRanges(number, entries);
    FlattenMembers(keyframes);
    forall name ensures Mentions(entries, name) <==> Declared(keyframes, name) {
      if Mentions(entries, name) {
        var e :| e in entries && e.name == name;
        var kf :| kf in keyframes && e in kf;
      }
      if Declared(keyframes, name) {
        var kf, e :| kf in keyframes && e in kf && e.name == name;
        assert e in entries;
      }
    }
    forall name | name in t.ranges ensures IsRangeOver(number, keyframes, name, t.ranges[name]) {
      var r := t.ranges[name];
      var lo :| lo in entries && lo.name == name && Numberized(number, lo.text) == r.min;
      var hi :| hi in entries && hi.name == name && Numberized(number, hi.text) == r.max;
      var kl :| kl in keyframes && lo in kl;
      var kh :| kh in keyframes && hi in kh;
      forall kf, e | kf in keyframes && e in kf && e.name == name
        ensures r.min <= Numberized(number, e.text) <= r.max
      {
        assert e in entries;
      }
    }
  }

  /** `property.yrate` (timewave.js:78-80): zero for a flat property, and
      otherwise the scale that stretches the property's range to the full
      canvas height. */
  function YRate(r: Range, height: nat): (rate: real)
    ensures r.max == r.min ==> rate == 0.0
    ensures r.max != r.min ==> (r.max - r.min) * rate == height as real
    ensures r.min <= r.max ==> rate >= 0.0
  {
    var distance := r.max - r.min;
    if distance == 0.0 then 0.0 else height as real / distance
  }
}
