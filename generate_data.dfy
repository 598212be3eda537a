/**
 * The synthetic production-log generator (Automi_ai/generate_data.py): for
 * every day, station, team and shift it emits a block of at least 20 items,
 * numbering them with a running `item_id`, and appends one production row and
 * one image-quality row per item. The random draws are inputs: the per
 * (day, station) throughput base, the per-block scale factor, and the per-item
 * draws indexed by item id. Dates are day offsets from 2022-01-01.
 */
module GenerateData {
  import opened Wrappers
  import Text

  type Bit = b: int | 0 <= b <= 1
  type CauseIndex = i: nat | i < 6
  type SizeIndex = i: nat | i < 3

  const DAYS: nat := 120
  const MIN_BLOCK: nat := 20
  const STATIONS: seq<string> := ["S01", "S02", "S03", "S04", "S05", "S06", "S07", "S08", "S09", "S10"]
  const TEAMS: seq<string> := ["A", "B", "C"]
  const SHIFTS: seq<string> := ["Day", "Evening", "Night"]
  const CAUSES: seq<string> := ["Scratch", "Dust", "ColorMismatch", "Misalignment", "Crack", "Other"]
  const WIDTHS: seq<int> := [1024, 1280, 1600]
  const HEIGHTS: seq<int> := [768, 960, 1200]

  /** `f"S{i:02d}"`. */
  function StationName(i: nat): string {
    "S" + Text.ZeroPad(i, 2)
  }

  lemma {:induction false} StationNameValue(i: nat)
    requires 1 <= i <= 10
    ensures StationName(i) == STATIONS[i - 1]
  {
    if i < 10 {
      assert Text.ZeroPad(i, 2) == "0" + Text.NatToString(i);
    } else {
      assert Text.NatToString(10) == Text.NatToString(1) + [Text.DigitChar(0)];
    }
  }

  /** `STATIONS` is `[f"S{i:02d}" for i in range(1, 11)]`: ten distinct names. */
  lemma StationNames()
    ensures |STATIONS| == 10
    ensures forall i :: 0 <= i < |STATIONS| ==> STATIONS[i] == StationName(i + 1)
    ensures forall i, j :: 0 <= i < j < |STATIONS| ==> STATIONS[i] != STATIONS[j]
  {
    forall i | 0 <= i < |STATIONS|
      ensures STATIONS[i] == StationName(i + 1)
    {
      StationNameValue(i + 1);
    }
  }

  /** One iteration of the four nested loops: a day and the indices of a station, a team and a shift. */
  datatype Slot = Slot(day: nat, station: nat, team: nat, shift: nat)

  predicate ValidSlot(b: Slot) {
    b.day < DAYS && b.station < |STATIONS| && b.team < |TEAMS| && b.shift < |SHIFTS|
  }

  /** Position of a slot in loop order. */
  function Ordinal(b: Slot): nat {
    90 * b.day + 9 * b.station + 3 * b.team + b.shift
  }

  /** `a` comes no later than `b` in the nesting order day, station, team, shift. */
  predicate NotAfter(a: Slot, b: Slot) {
    || a == b
    || a.day < b.day
    || (a.day == b.day && a.station < b.station)
    || (a.day == b.day && a.station == b.station && a.team < b.team)
    || (a.day == b.day && a.station == b.station && a.team == b.team && a.shift < b.shift)
  }

  /** On valid slots, comparing ordinals is comparing in loop order. */
  lemma OrdinalIsLoopOrder(a: Slot, b: Slot)
    requires ValidSlot(a) && ValidSlot(b)
    ensures Ordinal(a) <= Ordinal(b) <==> NotAfter(a, b)
  {
  }

  /**
   * The block-level draws: `base[day, station]` is the Poisson throughput
   * drawn once per station and day, `scale[slot]` the uniform factor of one
   * (team, shift) block.
   */
  datatype BlockDraws = BlockDraws(base: (nat, nat) -> nat, scale: Slot -> real)

  /** `n = max(20, int(base * u / 3))`. */
  function BlockSize(draws: BlockDraws, b: Slot): (n: nat)
    ensures MIN_BLOCK <= n
    ensures (draws.base(b.day, b.station) as real * draws.scale(b) / 3.0).Floor <= n
    ensures n == MIN_BLOCK || n == (draws.base(b.day, b.station) as real * draws.scale(b) / 3.0).Floor
  {
    var x := (draws.base(b.day, b.station) as real * draws.scale(b) / 3.0).Floor;
    if x > MIN_BLOCK then x else MIN_BLOCK
  }

  function Repeat(b: Slot, n: nat): (s: seq<Slot>)
    ensures |s| == n && forall k :: 0 <= k < n ==> s[k] == b
  {
    seq(n, _ => b)
  }

  lemma RepeatSnoc(b: Slot, n: nat)
    ensures Repeat(b, n + 1) == Repeat(b, n) + [b]
  {
  }

  /** The slot of every item, in the order the loops emit them. */
  function ShiftsLayout(draws: BlockDraws, d: nat, s: nat, t: nat, k: nat): seq<Slot> {
    if k == 0 then []
    else ShiftsLayout(draws, d, s, t, k - 1) + Repeat(Slot(d, s, t, k - 1), BlockSize(draws, Slot(d, s, t, k - 1)))
  }

  function TeamsLayout(draws: BlockDraws, d: nat, s: nat, k: nat): seq<Slot> {
    if k == 0 then [] else TeamsLayout(draws, d, s, k - 1) + ShiftsLayout(draws, d, s, k - 1, |SHIFTS|)
  }

  function StationsLayout(draws: BlockDraws, d: nat, k: nat): seq<Slot> {
    if k == 0 then [] else StationsLayout(draws, d, k - 1) + TeamsLayout(draws, d, k - 1, |TEAMS|)
  }

  function DaysLayout(draws: BlockDraws, k: nat): seq<Slot> {
    if k == 0 then [] else DaysLayout(draws, k - 1) + StationsLayout(draws, k - 1, |STATIONS|)
  }

  function Layout(draws: BlockDraws): seq<Slot> {
    DaysLayout(draws, DAYS)
  }

  /** The ordinals of `s` never decrease. */
  ghost predicate SortedByOrdinal(s: seq<Slot>) {
    forall i, j :: 0 <= i < j < |s| ==> Ordinal(s[i]) <= Ordinal(s[j])
  }

  /** Every slot of `s` is valid and has its ordinal in [lo, hi). */
  ghost predicate SlotsIn(s: seq<Slot>, lo: int, hi: int) {
    forall i :: 0 <= i < |s| ==> ValidSlot(s[i]) && lo <= Ordinal(s[i]) < hi
  }

  lemma SortedConcat(a: seq<Slot>, b: seq<Slot>, lo: int, mid: int, hi: int)
    requires lo <= mid <= hi
    requires SortedByOrdinal(a) && SlotsIn(a, lo, mid)
    requires SortedByOrdinal(b) && SlotsIn(b, mid, hi)
    ensures SortedByOrdinal(a + b) && SlotsIn(a + b, lo, hi)
  {
    var c := a + b;
    forall i | 0 <= i < |c|
      ensures ValidSlot(c[i]) && lo <= Ordinal(c[i]) < hi
    {
      if i >= |a| {
        assert c[i] == b[i - |a|];
      }
    }
    forall i, j | 0 <= i < j < |c|
      ensures Ordinal(c[i]) <= Ordinal(c[j])
    {
      if j < |a| {
      } else if i >= |a| {
        assert c[i] == b[i - |a|] && c[j] == b[j - |a|];
      } else {
        assert c[j] == b[j - |a|];
      }
    }
  }

  lemma {:induction false} ShiftsLayoutOrder(draws: BlockDraws, d: nat, s: nat, t: nat, k: nat)
    requires d < DAYS && s < |STATIONS| && t < |TEAMS| && k <= |SHIFTS|
    ensures SortedByOrdinal(ShiftsLayout(draws, d, s, t, k))
    ensures SlotsIn(ShiftsLayout(draws, d, s, t, k), 90 * d + 9 * s + 3 * t, 90 * d + 9 * s + 3 * t + k)
  {
    if k > 0 {
      ShiftsLayoutOrder(draws, d, s, t, k - 1);
      var b := Slot(d, s, t, k - 1);
      SortedConcat(ShiftsLayout(draws, d, s, t, k - 1), Repeat(b, BlockSize(draws, b)),
                   90 * d + 9 * s + 3 * t, 90 * d + 9 * s + 3 * t + k - 1, 90 * d + 9 * s + 3 * t + k);
    }
  }

  lemma {:induction false} TeamsLayoutOrder(draws: BlockDraws, d: nat, s: nat, k: nat)
    requires d < DAYS && s < |STATIONS| && k <= |TEAMS|
    ensures SortedByOrdinal(TeamsLayout(draws, d, s, k))
    ensures SlotsIn(TeamsLayout(draws, d, s, k), 90 * d + 9 * s, 90 * d + 9 * s + 3 * k)
  {
    if k > 0 {
      TeamsLayoutOrder(draws, d, s, k - 1);
      ShiftsLayoutOrder(draws, d, s, k - 1, |SHIFTS|);
      SortedConcat(TeamsLayout(draws, d, s, k - 1), ShiftsLayout(draws, d, s, k - 1, |SHIFTS|),
                   90 * d + 9 * s, 90 * d + 9 * s + 3 * (k - 1), 90 * d + 9 * s + 3 * k);
    }
  }

  lemma {:induction false} StationsLayoutOrder(draws: BlockDraws, d: nat, k: nat)
    requires d < DAYS && k <= |STATIONS|
    ensures SortedByOrdinal(StationsLayout(draws, d, k))
    ensures SlotsIn(StationsLayout(draws, d, k), 90 * d, 90 * d + 9 * k)
  {
    if k > 0 {
      StationsLayoutOrder(draws, d, k - 1);
      TeamsLayoutOrder(draws, d, k - 1, |TEAMS|);
      SortedConcat(StationsLayout(draws, d, k - 1), TeamsLayout(draws, d, k - 1, |TEAMS|),
                   90 * d, 90 * d + 9 * (k - 1), 90 * d + 9 * k);
    }
  }

  lemma {:induction false} DaysLayoutOrder(draws: BlockDraws, k: nat)
    requires k <= DAYS
    ensures SortedByOrdinal(DaysLayout(draws, k))
    ensures SlotsIn(DaysLayout(draws, k), 0, 90 * k)
  {
    if k > 0 {
      DaysLayoutOrder(draws, k - 1);
      StationsLayoutOrder(draws, k - 1, |STATIONS|);
      SortedConcat(DaysLayout(draws, k - 1), StationsLayout(draws, k - 1, |STATIONS|), 0, 90 * (k - 1), 90 * k);
    }
  }

  /**
   * The items are emitted in loop order: day first, then station, team and
   * shift, every slot a valid one (so every date is one of the 120 days).
   */
  lemma LayoutInLoopOrder(draws: BlockDraws)
    ensures forall i :: 0 <= i < |Layout(draws)| ==> ValidSlot(Layout(draws)[i])
    ensures forall i, j :: 0 <= i < j < |Layout(draws)| ==> NotAfter(Layout(draws)[i], Layout(draws)[j])
  {
    var layout := Layout(draws);
    DaysLayoutOrder(draws, DAYS);
    forall i, j | 0 <= i < j < |layout|
      ensures NotAfter(layout[i], layout[j])
    {
      OrdinalIsLoopOrder(layout[i], layout[j]);
    }
  }

  lemma {:induction false} ShiftsLayoutSize(draws: BlockDraws, d: nat, s: nat, t: nat, k: nat)
    ensures |ShiftsLayout(draws, d, s, t, k)| >= MIN_BLOCK * k
  {
    if k > 0 {
      ShiftsLayoutSize(draws, d, s, t, k - 1);
    }
  }

  lemma {:induction false} TeamsLayoutSize(draws: BlockDraws, d: nat, s: nat, k: nat)
    ensures |TeamsLayout(draws, d, s, k)| >= 60 * k
  {
    if k > 0 {
      TeamsLayoutSize(draws, d, s, k - 1);
      ShiftsLayoutSize(draws, d, s, k - 1, |SHIFTS|);
    }
  }

  lemma {:induction false} StationsLayoutSize(draws: BlockDraws, d: nat, k: nat)
    ensures |StationsLayout(draws, d, k)| >= 180 * k
  {
    if k > 0 {
      StationsLayoutSize(draws, d, k - 1);
      TeamsLayoutSize(draws, d, k - 1, |TEAMS|);
    }
  }

  lemma {:induction false} DaysLayoutSize(draws: BlockDraws, k: nat)
    ensures |DaysLayout(draws, k)| >= 1800 * k
  {
    if k > 0 {
      DaysLayoutSize(draws, k - 1);
      StationsLayoutSize(draws, k - 1, |STATIONS|);
    }
  }

  /** 120 days x 10 stations x 3 teams x 3 shifts = 10800 blocks of at least 20 items. */
  lemma LayoutSize(draws: BlockDraws)
    ensures |Layout(draws)| >= 216000
  {
    DaysLayoutSize(draws, DAYS);
  }

  /** The per-item draws. */
  datatype ItemDraw = ItemDraw(
    defect: Bit, cause: CauseIndex,
    blurDeviation: real, noiseDeviation: real, brightnessDeviation: real,
    width: SizeIndex, height: SizeIndex)

  datatype ProdRow = ProdRow(
    day: nat, station: string, team: string, shift: string,
    itemId: nat, defect: Bit, cause: Option<string>)

  datatype ImageRow = ImageRow(itemId: nat, blur: real, noise: real, brightness: real, width: int, height: int)

  function Clip01(x: real): (r: real)
    ensures 0.0 <= r <= 1.0
    ensures 0.0 <= x <= 1.0 ==> r == x
  {
    if x < 0.0 then 0.0 else if x > 1.0 then 1.0 else x
  }

  /** The production row of one item; `cause` is present exactly for defective items. */
  function ProdRowFor(b: Slot, id: nat, draw: ItemDraw): (r: ProdRow)
    requires ValidSlot(b)
    ensures r.day == b.day && r.station == STATIONS[b.station]
    ensures r.team == TEAMS[b.team] && r.shift == SHIFTS[b.shift]
    ensures r.itemId == id && r.defect == draw.defect
    ensures r.cause == None <==> r.defect == 0
    ensures r.cause.Some? ==> r.cause.value in CAUSES
  {
    ProdRow(b.day, STATIONS[b.station], TEAMS[b.team], SHIFTS[b.shift], id, draw.defect,
            if draw.defect == 1 then Some(CAUSES[draw.cause]) else None)
  }

  predicate ImageRowOk(r: ImageRow) {
    && 0.0 <= r.blur <= 1.0 && 0.0 <= r.noise <= 1.0 && 0.0 <= r.brightness <= 1.0
    && r.width in WIDTHS && r.height in HEIGHTS
  }

  /** The image row of one item: defective items are drawn around a higher blur and noise mean. */
  function ImageRowFor(id: nat, draw: ItemDraw): (r: ImageRow)
    ensures r.itemId == id && ImageRowOk(r)
  {
    ImageRow(id,
      Clip01((if draw.defect == 1 then 0.4 else 0.2) + draw.blurDeviation),
      Clip01((if draw.defect == 1 then 0.5 else 0.3) + draw.noiseDeviation),
      Clip01(0.6 + draw.brightnessDeviation),
      WIDTHS[draw.width], HEIGHTS[draw.height])
  }

  /** The first |layout| items have been emitted, item k + 1 in slot layout[k]. */
  ghost predicate Emitted(rows: seq<ProdRow>, imageRows: seq<ImageRow>, layout: seq<Slot>, item: nat -> ItemDraw) {
    && |rows| == |imageRows| == |layout|
    && (forall k :: 0 <= k < |layout| ==> ValidSlot(layout[k]))
    && (forall k :: 0 <= k < |rows| ==> rows[k] == ProdRowFor(layout[k], k + 1, item(k + 1)))
    && (forall k :: 0 <= k < |rows| ==> imageRows[k] == ImageRowFor(k + 1, item(k + 1)))
  }

  /**
   * The nested generation loop. Item k + 1 of the output is the k-th item of
   * `Layout(draws)`: its ids run 1, 2, ... in lock-step over both tables.
   */
  method GenerateLogs(draws: BlockDraws, item: nat -> ItemDraw) returns (rows: seq<ProdRow>, imageRows: seq<ImageRow>)
    ensures |rows| == |imageRows| == |Layout(draws)| >= 216000
    ensures forall k :: 0 <= k < |rows| ==> ValidSlot(Layout(draws)[k])
    ensures forall k :: 0 <= k < |rows| ==> rows[k] == ProdRowFor(Layout(draws)[k], k + 1, item(k + 1))
    ensures forall k :: 0 <= k < |rows| ==> imageRows[k] == ImageRowFor(k + 1, item(k + 1))
    ensures forall k :: 0 <= k < |rows| ==> rows[k].itemId == imageRows[k].itemId == k + 1
  {
    rows, imageRows := EmitDays(draws, item);
    EmittedRows(rows, imageRows, Layout(draws), item);
    LayoutSize(draws);
  }

  /** `for d in range(DAYS)`. */
  method EmitDays(draws: BlockDraws, item: nat -> ItemDraw) returns (rows: seq<ProdRow>, imageRows: seq<ImageRow>)
    ensures Emitted(rows, imageRows, Layout(draws), item)
  {
    rows, imageRows := [], [];
    var itemId := 0;
    for d := 0 to DAYS
      invariant itemId == |rows| && Emitted(rows, imageRows, DaysLayout(draws, d), item)
    {
      rows, imageRows, itemId := EmitDay(rows, imageRows, itemId, DaysLayout(draws, d), d, draws, item);
    }
  }

  /** `for st in STATIONS`, drawing the station's throughput base once. */
  method EmitDay(rows: seq<ProdRow>, imageRows: seq<ImageRow>, itemId: nat, ghost layout: seq<Slot>,
                 d: nat, draws: BlockDraws, item: nat -> ItemDraw)
    returns (rows': seq<ProdRow>, imageRows': seq<ImageRow>, itemId': nat)
    requires d < DAYS
    requires itemId == |rows| && Emitted(rows, imageRows, layout, item)
    ensures itemId' == |rows'| && Emitted(rows', imageRows', layout + StationsLayout(draws, d, |STATIONS|), item)
  {
    rows', imageRows', itemId' := rows, imageRows, itemId;
    ghost var current := layout;
    for s := 0 to |STATIONS|
      invariant current == layout + StationsLayout(draws, d, s)
      invariant itemId' == |rows'| && Emitted(rows', imageRows', current, item)
    {
      var base := draws.base(d, s);
      rows', imageRows', itemId' := EmitStation(rows', imageRows', itemId', current, d, s, base, draws, item);
      AppendAssoc(layout, StationsLayout(draws, d, s), TeamsLayout(draws, d, s, |TEAMS|));
      current := current + TeamsLayout(draws, d, s, |TEAMS|);
    }
  }

  /** `for team in TEAMS`. */
  method EmitStation(rows: seq<ProdRow>, imageRows: seq<ImageRow>, itemId: nat, ghost layout: seq<Slot>,
                     d: nat, s: nat, base: nat, draws: BlockDraws, item: nat -> ItemDraw)
    returns (rows': seq<ProdRow>, imageRows': seq<ImageRow>, itemId': nat)
    requires d < DAYS && s < |STATIONS| && base == draws.base(d, s)
    requires itemId == |rows| && Emitted(rows, imageRows, layout, item)
    ensures itemId' == |rows'| && Emitted(rows', imageRows', layout + TeamsLayout(draws, d, s, |TEAMS|), item)
  {
    rows', imageRows', itemId' := rows, imageRows, itemId;
    ghost var current := layout;
    for t := 0 to |TEAMS|
      invariant current == layout + TeamsLayout(draws, d, s, t)
      invariant itemId' == |rows'| && Emitted(rows', imageRows', current, item)
    {
      rows', imageRows', itemId' := EmitTeam(rows', imageRows', itemId', current, d, s, t, base, draws, item);
      AppendAssoc(layout, TeamsLayout(draws, d, s, t), ShiftsLayout(draws, d, s, t, |SHIFTS|));
      current := current + ShiftsLayout(draws, d, s, t, |SHIFTS|);
    }
  }

  /** `for shift in SHIFTS`: one block of `n = max(20, int(base * u / 3))` items per shift. */
  method EmitTeam(rows: seq<ProdRow>, imageRows: seq<ImageRow>, itemId: nat, ghost layout: seq<Slot>,
                  d: nat, s: nat, t: nat, base: nat, draws: BlockDraws, item: nat -> ItemDraw)
    returns (rows': seq<ProdRow>, imageRows': seq<ImageRow>, itemId': nat)
    requires d < DAYS && s < |STATIONS| && t < |TEAMS| && base == draws.base(d, s)
    requires itemId == |rows| && Emitted(rows, imageRows, layout, item)
    ensures itemId' == |rows'| && Emitted(rows', imageRows', layout + ShiftsLayout(draws, d, s, t, |SHIFTS|), item)
  {
    rows', imageRows', itemId' := rows, imageRows, itemId;
    ghost var current := layout;
    for h := 0 to |SHIFTS|
      invariant current == layout + ShiftsLayout(draws, d, s, t, h)
      invariant itemId' == |rows'| && Emitted(rows', imageRows', current, item)
    {
      var slot := Slot(d, s, t, h);
      var x := (base as real * draws.scale(slot) / 3.0).Floor;
      var n: nat := if x > MIN_BLOCK then x else MIN_BLOCK;
      assert n == BlockSize(draws, slot);
      rows', imageRows', itemId' := EmitBlock(rows', imageRows', itemId', current, slot, n, item);
      AppendAssoc(layout, ShiftsLayout(draws, d, s, t, h), Repeat(slot, n));
      current := current + Repeat(slot, n);
    }
  }

  lemma AppendAssoc(a: seq<Slot>, b: seq<Slot>, c: seq<Slot>)
    ensures a + (b + c) == a + b + c
  {
  }

  lemma EmittedRows(rows: seq<ProdRow>, imageRows: seq<ImageRow>, layout: seq<Slot>, item: nat -> ItemDraw)
    requires Emitted(rows, imageRows, layout, item)
    ensures |rows| == |imageRows| == |layout|
    ensures forall k :: 0 <= k < |rows| ==> ValidSlot(layout[k])
    ensures forall k :: 0 <= k < |rows| ==> rows[k] == ProdRowFor(layout[k], k + 1, item(k + 1))
    ensures forall k :: 0 <= k < |rows| ==> imageRows[k] == ImageRowFor(k + 1, item(k + 1))
    ensures forall k :: 0 <= k < |rows| ==> rows[k].itemId == imageRows[k].itemId == k + 1
  {
  }

  /** Appending the next item keeps the emitted prefix in step with its layout. */
  lemma EmitOne(rows: seq<ProdRow>, imageRows: seq<ImageRow>, layout: seq<Slot>, b: Slot, item: nat -> ItemDraw)
    requires Emitted(rows, imageRows, layout, item) && ValidSlot(b)
    ensures Emitted(rows + [ProdRowFor(b, |rows| + 1, item(|rows| + 1))],
                    imageRows + [ImageRowFor(|rows| + 1, item(|rows| + 1))], layout + [b], item)
  {
  }

  /** The innermost loop: `n` items of one block, numbered on from `itemId`. */
  method EmitBlock(rows: seq<ProdRow>, imageRows: seq<ImageRow>, itemId: nat, ghost layout: seq<Slot>,
                   slot: Slot, n: nat, item: nat -> ItemDraw)
    returns (rows': seq<ProdRow>, imageRows': seq<ImageRow>, itemId': nat)
    requires ValidSlot(slot)
    requires itemId == |rows| && Emitted(rows, imageRows, layout, item)
    ensures itemId' == |rows'| && Emitted(rows', imageRows', layout + Repeat(slot, n), item)
  {
    rows', imageRows', itemId' := rows, imageRows, itemId;
    for j := 0 to n
      invariant itemId' == |rows'| && Emitted(rows', imageRows', layout + Repeat(slot, j), item)
    {
      itemId' := itemId' + 1;
      var draw := item(itemId');
      var cause := if draw.defect == 1 then Some(CAUSES[draw.cause]) else None;
      var row := ProdRow(slot.day, STATIONS[slot.station], TEAMS[slot.team], SHIFTS[slot.shift],
                         itemId', draw.defect, cause);
      assert row == ProdRowFor(slot, itemId', draw);
      EmitOne(rows', imageRows', layout + Repeat(slot, j), slot, item);
      rows' := rows' + [row];
      imageRows' := imageRows' + [ImageRowFor(itemId', draw)];
      RepeatSnoc(slot, j);
      AppendAssoc(layout, Repeat(slot, j), [slot]);
    }
  }
}
