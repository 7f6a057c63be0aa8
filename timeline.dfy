/** The time and height arithmetic of `Timewave.build` and
    `Timewave.updateCanvas`: the animation's total time, the displayed
    window with its 10% trailing margin, the time sampled at each canvas
    column and the top of the bar drawn for each sampled value. */
module Timeline {
  import opened Wrappers
  import opened Keyframes

  /** `totalTime = duration + delay` (timewave.js:66): the time at which an
      animation that waits `delay` and then runs for `duration` ends, so
      never before either part alone when the other is not negative. */
  function TotalTime(duration: real, delay: real): (total: real)
    ensures delay >= 0.0 ==> duration <= total
    ensures duration >= 0.0 ==> delay <= total
  {
    duration + delay
  }

  /** `resultTotalTime = totalTime * 1.1` (timewave.js:101): the displayed
      window, a tenth longer than the animation. */
  function ResultTotalTime(totalTime: real): (window: real)
    ensures totalTime > 0.0 ==> totalTime < window
    ensures window * 10.0 == totalTime * 11.0
  {
    totalTime * 1.1
  }

  /** `currentTime = x * xrate` with `xrate = resultTotalTime / width`
      (timewave.js:177, 182), for a column `x` of the loop at
      timewave.js:181, which only runs with `x < width`. */
  function SampleTime(x: nat, resultTotalTime: real, width: nat): real
    requires x < width
  {
    x as real * (resultTotalTime / width as real)
  }

  /** Every column samples a time inside the displayed window: the first
      column samples time 0, and no column reaches the window's end. */
  lemma SampleTimeInWindow(x: nat, resultTotalTime: real, width: nat)
    requires x < width && resultTotalTime > 0.0
    ensures 0.0 <= SampleTime(x, resultTotalTime, width) < resultTotalTime
    ensures x == 0 ==> SampleTime(x, resultTotalTime, width) == 0.0
  {
    var rate := resultTotalTime / width as real;
    assert rate > 0.0;
    assert x as real * rate < width as real * rate;
    assert width as real * rate == resultTotalTime;
  }

  /** Columns further right sample strictly later times. */
  lemma SampleTimeIncreasing(x: nat, y: nat, resultTotalTime: real, width: nat)
    requires x < y < width && resultTotalTime > 0.0
    ensures SampleTime(x, resultTotalTime, width) < SampleTime(y, resultTotalTime, width)
  {
    var rate := resultTotalTime / width as real;
    assert rate > 0.0;
    assert (y as real - x as real) * rate > 0.0;
  }

  /** With the window a tenth longer than the animation, a column samples a
      time before the animation's end exactly when it lies in the left
      ten-elevenths of the canvas; the rest is the trailing margin. */
  lemma SampleTimeBeforeEnd(x: nat, duration: real, delay: real, width: nat)
    requires x < width && TotalTime(duration, delay) > 0.0
    ensures SampleTime(x, ResultTotalTime(TotalTime(duration, delay)), width) <
              TotalTime(duration, delay) <==>
            11 * x < 10 * width
  {
    var totalTime := TotalTime(duration, delay);
    var window := ResultTotalTime(totalTime);
    var t := SampleTime(x, window, width);
    var w := width as real;
    var n := x as real;
    assert t * w == n * window by {
      assert window / w * w == window;
    }
    assert window * 10.0 == totalTime * 11.0;
    var scale := w * 10.0;
    assert scale > 0.0;
    var lhs, rhs := t * scale, totalTime * scale;
    assert lhs == (n * 11.0) * totalTime by {
      assert t * scale == (t * w) * 10.0 == n * (window * 10.0);
    }
    assert rhs == scale * totalTime;
    ScaleStrict(t, totalTime, scale);
    assert t < totalTime <==> lhs < rhs;
    ScaleStrict(n * 11.0, scale, totalTime);
    assert lhs < rhs <==> n * 11.0 < scale;
    assert (11 * x) as real == n * 11.0 && (10 * width) as real == w * 10.0;
  }

  /** Multiplying by a positive factor keeps a strict order. */
  lemma ScaleStrict(a: real, b: real, c: real)
    requires c > 0.0
    ensures a < b <==> a * c < b * c
  {
    assert (b - a) * c == b * c - a * c;
    if a < b {
      assert (b - a) * c > 0.0;
    } else {
      assert (a - b) * c >= 0.0;
    }
  }

  /** The y coordinate the bar for `value` rises to,
      `height - (value - min) * yrate` (timewave.js:193). */
  function BarTop(height: nat, r: Range, value: real): real {
    height as real - (value - r.min) * YRate(r, height)
  }

  /** The property's least value draws nothing above the baseline, its
      greatest value reaches the top of the canvas, and a property that
      never changes draws a flat line at the baseline. */
  lemma BarTopEnds(height: nat, r: Range, value: real)
    ensures BarTop(height, r, r.min) == height as real
    ensures r.max != r.min ==> BarTop(height, r, r.max) == 0.0
    ensures r.max == r.min ==> BarTop(height, r, value) == height as real
  {
    assert (r.min - r.min) * YRate(r, height) == 0.0;
  }

  /** A value inside the property's range draws a bar inside the canvas, and
      a greater value draws a taller bar (a smaller y). */
  lemma BarTopWithinCanvas(height: nat, r: Range, value: real, other: real)
    requires r.min <= value <= r.max
    ensures 0.0 <= BarTop(height, r, value) <= height as real
    ensures r.min < r.max && height > 0 && value < other ==>
            BarTop(height, r, other) < BarTop(height, r, value)
  {
    var rate := YRate(r, height);
    assert 0.0 <= (value - r.min) * rate;
    if r.min < r.max {
      assert (value - r.min) * rate <= (r.max - r.min) * rate;
      if height > 0 && value < other {
        assert rate > 0.0;
        ScaleStrict(value - r.min, other - r.min, rate);
      }
    }
  }

  /** A property going from 0 to 100 on a canvas 200 high is drawn at
      twice its scale: a sample of 50 rises to y = 100. */
  lemma BarTopExample()
    ensures YRate(Range(0.0, 100.0), 200) == 2.0
    ensures BarTop(200, Range(0.0, 100.0), 50.0) == 100.0
  {
  }

  /** `style(t, name)` stands for the computed style of property `name`
      read back after seeking the animation to `t` (timewave.js:183-187);
      `None` is a name the computed style does not have, whose `undefined`
      makes `numberize` throw at `value.replace`. */
  type Style = (real, string) -> Option<string>

  /** The top of the bar for property `name` when the animation is at time
      `t` and the computed style has a value for it. */
  function Sampled(properties: Table, height: nat, t: real, name: string,
                   style: Style, number: string -> real): real
    requires name in properties.ranges && style(t, name).Some?
  {
    BarTop(height, properties.ranges[name], Numberized(number, style(t, name).value))
  }

  /** The per-column `forEach` over the property names (timewave.js:185-195):
      one bar per property, in the table's key order. The first property
      without a computed value throws, which ends the whole column (`None`). */
  method DrawColumn(properties: Table, height: nat, currentTime: real,
                    style: Style, number: string -> real)
    returns (column: Option<seq<real>>)
    requires forall name :: name in properties.names ==> name in properties.ranges
    ensures column.None? <==>
            exists i :: 0 <= i < |properties.names| && style(currentTime, properties.names[i]).None?
    ensures column.Some? ==> |column.value| == |properties.names|
    ensures column.Some? ==>
              forall i :: 0 <= i < |properties.names| ==>
                style(currentTime, properties.names[i]).Some? &&
                column.value[i] == Sampled(properties, height, currentTime, properties.names[i],
                                           style, number)
  {
    var propertyNames := properties.names;
    var tops := [];
    for i := 0 to |propertyNames|
      invariant |tops| == i
      invariant forall j :: 0 <= j < i ==>
                  style(currentTime, propertyNames[j]).Some? &&
                  tops[j] == Sampled(properties, height, currentTime, propertyNames[j], style, number)
    {
      var propertyName := propertyNames[i];
      var computed := style(currentTime, propertyName);
      if computed.None? {
        return None;
      }
      assert style(currentTime, propertyName) == computed;
      var value := Numberized(number, computed.value);
      var property := properties.ranges[propertyName];
      var rate := YRate(property, height);
      var top := height as real - (value - property.min) * rate;
      assert top == BarTop(height, property, value);
      assert top == Sampled(properties, height, currentTime, propertyName, style, number);
      tops := tops + [top];
    }
    column := Some(tops);
  }

  /** The drawing loop of `updateCanvas` (timewave.js:176-196): for every
      column `x` the animation is sought to `x * xrate` and a column of bars
      is drawn. `tops[x][i]` is the top of the bar of column `x` for the
      `i`-th property. `None` when some column meets a property without a
      computed value: the code throws there. */
  method UpdateCanvas(properties: Table, width: nat, height: nat, resultTotalTime: real,
                      style: Style, number: string -> real)
    returns (tops: Option<seq<seq<real>>>)
    requires forall name :: name in properties.names ==> name in properties.ranges
    ensures tops.None? <==>
            exists x, i :: 0 <= x < width && 0 <= i < |properties.names| &&
                           style(SampleTime(x, resultTotalTime, width), properties.names[i]).None?
    ensures tops.Some? ==> |tops.value| == width
    ensures tops.Some? ==>
              forall x :: 0 <= x < width ==> |tops.value[x]| == |properties.names|
    ensures tops.Some? ==>
              forall x, i :: 0 <= x < width && 0 <= i < |properties.names| ==>
                style(SampleTime(x, resultTotalTime, width), properties.names[i]).Some? &&
                tops.value[x][i] == Sampled(properties, height, SampleTime(x, resultTotalTime, width),
                                            properties.names[i], style, number)
  {
    if width == 0 {
      // `xrate` is not a finite number here, but the loop below never runs.
      return Some([]);
    }
    var xrate := resultTotalTime / width as real;
    var columns := [];
    for x := 0 to width
      invariant |columns| == x
      invariant forall c :: 0 <= c < x ==> |columns[c]| == |properties.names|
      invariant forall c, i :: 0 <= c < x && 0 <= i < |properties.names| ==>
                  style(SampleTime(c, resultTotalTime, width), properties.names[i]).Some? &&
                  columns[c][i] == Sampled(properties, height, SampleTime(c, resultTotalTime, width),
                                           properties.names[i], style, number)
    {
      var currentTime := x as real * xrate;
      assert currentTime == SampleTime(x, resultTotalTime, width);
      var column := DrawColumn(properties, height, currentTime, style, number);
      if column.None? {
        return None;
      }
      columns := columns + [column.value];
      assert columns[x] == column.value;
    }
    tops := Some(columns);
  }
}
