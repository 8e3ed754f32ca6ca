/** The heatmap: one tile per tool, coloured by its value at the selected
    period, labelled with the first two characters of its CEID, under a
    period selector whose options are the windows of the first tool. */
module Heatmap {
  import opened Tools

  /** `useState("91")`: the period shown before the user picks one. */
  const DefaultPeriod: nat := 91

  /** `getColor`'s hue: `((100 - value) * 120) / 100`. */
  function Hue(v: real): real {
    ((100.0 - v) * 120.0) / 100.0
  }

  /** The value a hue was computed from. */
  function ValueOfHue(h: real): real {
    100.0 - (h * 100.0) / 120.0
  }

  /** Value 0 is green (hue 120), value 100 is red (hue 0). */
  lemma HueEndpoints()
    ensures Hue(0.0) == 120.0
    ensures Hue(100.0) == 0.0
  {
  }

  /** A value within [0, 100] gives a hue within [0, 120]. */
  lemma HueBounds(v: real)
    requires 0.0 <= v <= 100.0
    ensures 0.0 <= Hue(v) <= 120.0
  {
  }

  /** A higher value always gives a strictly smaller hue. */
  lemma HueStrictlyDecreasing(v: real, w: real)
    requires v < w
    ensures Hue(w) < Hue(v)
  {
  }

  /** The map loses nothing: the value is recovered from its hue. */
  lemma HueInverse(v: real)
    ensures ValueOfHue(Hue(v)) == v
  {
  }

  /** `tool.limitations[selectedPeriod]`: the value stored under that day,
      or `undefined` (None) when the tool has no such window. */
  function Lookup(t: ToolData, day: nat): Option<real> {
    LookupIn(t.limitations, day)
  }

  /** The first window with that day, in enumeration order. */
  function LookupIn(ws: seq<Window>, day: nat): Option<real> {
    if |ws| == 0 then None
    else if ws[0].day == day then Some(ws[0].value)
    else LookupIn(ws[1..], day)
  }

  /** A value found is one stored under that day. */
  lemma {:induction false} LookupSome(ws: seq<Window>, day: nat)
    ensures LookupIn(ws, day).Some? ==>
            exists k :: 0 <= k < |ws| && ws[k] == Window(day, LookupIn(ws, day).value)
  {
    if |ws| > 0 && ws[0].day != day {
      LookupSome(ws[1..], day);
      if LookupIn(ws, day).Some? {
        var k :| 0 <= k < |ws[1..]| && ws[1..][k] == Window(day, LookupIn(ws, day).value);
        assert ws[k + 1] == ws[1..][k];
      }
    }
  }

  /** Lookup fails exactly when no window has that day. */
  lemma {:induction false} LookupNoneIff(ws: seq<Window>, day: nat)
    ensures LookupIn(ws, day).None? <==> forall k :: 0 <= k < |ws| ==> ws[k].day != day
  {
    if |ws| > 0 {
      LookupNoneIff(ws[1..], day);
      if ws[0].day != day {
        forall k | 1 <= k < |ws|
          ensures ws[k].day == ws[1..][k - 1].day
        {
        }
      }
    }
  }

  /** With strictly ascending days every window is found under its own day. */
  lemma {:induction false} LookupFinds(t: ToolData, k: nat)
    requires WellFormed(t) && k < |t.limitations|
    ensures Lookup(t, t.limitations[k].day) == Some(t.limitations[k].value)
  {
    LookupFindsIn(t.limitations, k);
  }

  lemma {:induction false} LookupFindsIn(ws: seq<Window>, k: nat)
    requires forall i, j :: 0 <= i < j < |ws| ==> ws[i].day < ws[j].day
    requires k < |ws|
    ensures LookupIn(ws, ws[k].day) == Some(ws[k].value)
  {
    if k > 0 {
      assert ws[0].day < ws[k].day;
      assert ws[1..][k - 1] == ws[k];
      LookupFindsIn(ws[1..], k - 1);
    }
  }

  /** `tool.CEID.slice(0, 2)`. */
  function TileLabel(ceid: string): (r: string)
    ensures |r| == if |ceid| < 2 then |ceid| else 2
    ensures r <= ceid
  {
    if |ceid| < 2 then ceid else ceid[..2]
  }

  /** One tile: its key and tooltip name, its label, the value at the
      selected period and the hue drawn for it (`undefined` and NaN are
      None). */
  datatype Tile = Tile(ceid: string, caption: string, value: Option<real>, hue: Option<real>)

  function TileFor(t: ToolData, period: nat): (r: Tile)
    ensures r.ceid == t.CEID && r.caption == TileLabel(t.CEID)
    ensures r.value == Lookup(t, period)
    ensures r.hue.Some? <==> r.value.Some?
    ensures r.value.Some? ==> r.hue.value == Hue(r.value.value)
  {
    var v := Lookup(t, period);
    Tile(t.CEID, TileLabel(t.CEID), v, if v.Some? then Some(Hue(v.value)) else None)
  }

  /** `data.map(...)`: one tile per tool, in list order. */
  function Tiles(data: seq<ToolData>, period: nat): (r: seq<Tile>)
    ensures |r| == |data|
    ensures forall i :: 0 <= i < |data| ==> r[i] == TileFor(data[i], period)
  {
    seq(|data|, i requires 0 <= i < |data| => TileFor(data[i], period))
  }

  /** `Object.keys(data[0].limitations)`; reading `data[0]` of an empty list
      throws, so there is no view (None) without a first record. */
  function PeriodOptions(data: seq<ToolData>): (r: Option<seq<nat>>)
    ensures r.None? <==> |data| == 0
    ensures r.Some? ==> |r.value| == |data[0].limitations|
    ensures r.Some? ==> forall i :: 0 <= i < |r.value| ==> r.value[i] == data[0].limitations[i].day
  {
    if |data| == 0 then None
    else Some(seq(|data[0].limitations|, i requires 0 <= i < |data[0].limitations| => data[0].limitations[i].day))
  }

  /** What the component renders: the selector's options and the tiles. */
  datatype View = View(options: seq<nat>, tiles: seq<Tile>)

  function Render(data: seq<ToolData>, period: nat): (r: Option<View>)
    ensures r.None? <==> |data| == 0
    ensures r.Some? ==> r.value.options == PeriodOptions(data).value
    ensures r.Some? ==> r.value.tiles == Tiles(data, period)
  {
    match PeriodOptions(data)
    case None => None
    case Some(options) => Some(View(options, Tiles(data, period)))
  }

  /** Every option offered is a period the first tool has a value for. */
  lemma OptionsFoundInFirstTool(data: seq<ToolData>, i: nat)
    requires |data| > 0 && WellFormed(data[0])
    requires i < |PeriodOptions(data).value|
    ensures Lookup(data[0], PeriodOptions(data).value[i]).Some?
  {
    LookupFinds(data[0], i);
  }

  /** A tool lacking the selected period gets no colour. */
  lemma MissingPeriodNoHue(t: ToolData, period: nat)
    requires forall k :: 0 <= k < |t.limitations| ==> t.limitations[k].day != period
    ensures TileFor(t, period).hue.None?
  {
    LookupNoneIff(t.limitations, period);
  }

  /** With every value in [0, 100], every coloured tile has a hue in
      [0, 120]. */
  lemma TilesHueBounds(data: seq<ToolData>, period: nat)
    requires forall i, k :: 0 <= i < |data| && 0 <= k < |data[i].limitations| ==>
               0.0 <= data[i].limitations[k].value <= 100.0
    ensures forall i :: 0 <= i < |data| && Tiles(data, period)[i].hue.Some? ==>
              0.0 <= Tiles(data, period)[i].hue.value <= 120.0
  {
    forall i | 0 <= i < |data| && Tiles(data, period)[i].hue.Some?
      ensures 0.0 <= Tiles(data, period)[i].hue.value <= 120.0
    {
      var v := Lookup(data[i], period).value;
      LookupSome(data[i].limitations, period);
      var k :| 0 <= k < |data[i].limitations| && data[i].limitations[k] == Window(period, v);
      HueBounds(v);
    }
  }

  /** A tool with windows 7 and 91 (values 40 and 75) under the default
      period: label "AB", value 75, hue 30. */
  lemma TileExample()
    ensures TileFor(ToolData("ABC1", [Window(7, 40.0), Window(91, 75.0)]), DefaultPeriod)
            == Tile("ABC1", "AB", Some(75.0), Some(30.0))
  {
    var ws := [Window(7, 40.0), Window(91, 75.0)];
    assert ws[1..] == [Window(91, 75.0)];
    assert "ABC1"[..2] == "AB";
  }
}
