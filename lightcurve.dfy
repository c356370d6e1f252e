/**
 * The light-curve payload of `JSONLocation.generate`: photometry grouped by band in
 * first-seen order, one series per band, labels broadcast or zipped, glyphs cycled.
 * The JSON document is kept as a structured value; its serialisation is not modelled.
 */
module LightCurve {
  import opened Photometry
  import opened Lists

  /** One `(color, glyph)` pair of the style list. */
  datatype Glyph = Glyph(color: string, glyph: string)

  /** `JSONLocation.GLYPHS`, the default style list. */
  const GLYPHS: seq<Glyph> := [Glyph("white", "circle"), Glyph("red", "square")]

  /** The `labels` argument: one label for every series, or a list of labels. */
  datatype LabelArg = Scalar(text: string) | LabelList(labels: seq<string>)

  /** A point `{"x": ..., "y": ...}` of `seriesData`. */
  datatype Point = Point(x: real, y: real)

  /** The `seriesOptions` object of one series. */
  datatype SeriesOptions = SeriesOptions(color: string, glyph: string, labelText: string)  // keys "color", "glyph", "label"

  /** One entry of the `data` list. */
  datatype Series = Series(seriesData: seq<Point>, seriesOptions: SeriesOptions)

  /** The document `{"data": [...]}`. */
  datatype LightCurveDoc = LightCurveDoc(data: seq<Series>)

  /** The three columns collected for one band (`lcs[band]`). */
  datatype BandCurve = BandCurve(midpointMjdTai: seq<real>, psfFlux: seq<real>, psfFluxErr: seq<real>)

  function Min(a: nat, b: nat): nat { if a <= b then a else b }

  /** The distinct bands of `ps`, in order of first appearance. */
  function Bands(ps: seq<Record>): seq<string>
  {
    if ps == [] then []
    else
      var earlier := Bands(ps[..|ps| - 1]);
      var band := ps[|ps| - 1].band;
      if band in earlier then earlier else earlier + [band]
  }

  /** The records of band `band`, in photometry order. */
  function BandRecords(ps: seq<Record>, band: string): seq<Record>
  {
    if ps == [] then []
    else BandRecords(ps[..|ps| - 1], band) + (if ps[|ps| - 1].band == band then [ps[|ps| - 1]] else [])
  }

  /** The columns `lcs[band]` holds once every record has been appended. */
  function CurveOf(ps: seq<Record>, band: string): BandCurve
  {
    var rs := BandRecords(ps, band);
    BandCurve(
      seq(|rs|, k requires 0 <= k < |rs| => rs[k].midpointMjdTai),
      seq(|rs|, k requires 0 <= k < |rs| => rs[k].psfFlux),
      seq(|rs|, k requires 0 <= k < |rs| => rs[k].psfFluxErr))
  }

  /** The `(midpointMjdTai, psfFlux)` points of band `band`, one per record, in photometry order. */
  function BandPoints(ps: seq<Record>, band: string): seq<Point>
  {
    var rs := BandRecords(ps, band);
    seq(|rs|, k requires 0 <= k < |rs| => Point(rs[k].midpointMjdTai, rs[k].psfFlux))
  }

  /** `[{"x": x, "y": y} for (x, y) in zip(xs, ys)]`: `zip` stops at the shorter column. */
  function SeriesData(xs: seq<real>, ys: seq<real>): (r: seq<Point>)
    ensures |r| == Min(|xs|, |ys|)
    ensures forall k :: 0 <= k < |r| ==> r[k] == Point(xs[k], ys[k])
  {
    seq(Min(|xs|, |ys|), k requires 0 <= k < Min(|xs|, |ys|) => Point(xs[k], ys[k]))
  }

  /** The value `is_list_like` inspects for each form of the labels argument. */
  function LabelKind(labels: LabelArg): PyObject
  {
    match labels
    case Scalar(_) => Str
    case LabelList(_) => List
  }

  /**
   * The labels zipped with the series: a label that is not list-like becomes
   * `[labels] * n`; a list of labels is used as it is.
   */
  function LabelsFor(labels: LabelArg, n: nat): (ls: seq<string>)
    ensures IsListLike(LabelKind(labels)) <==> labels.LabelList?
    ensures labels.Scalar? ==> |ls| == n && forall k :: 0 <= k < n ==> ls[k] == labels.text
    ensures labels.LabelList? ==> ls == labels.labels
  {
    if !IsListLike(LabelKind(labels)) then seq(n, _ => labels.text) else labels.labels
  }

  /**
   * The position of `cycle(glyphs)` (over `n` styles) after `i` draws: it restarts at 0
   * after the last style, so it is `i` reduced modulo `n`.
   */
  function Cycle(i: nat, n: nat): (k: nat)
    requires n > 0
    ensures k < n
    ensures i < n ==> k == i
  {
    if i < n then i else Cycle(i - n, n)
  }

  /** One more draw from `cycle` moves to the next style, wrapping after the last. */
  lemma {:induction false} CycleStep(i: nat, n: nat)
    requires n > 0
    ensures Cycle(i + 1, n) == if Cycle(i, n) + 1 == n then 0 else Cycle(i, n) + 1
  {
    if i >= n {
      CycleStep(i - n, n);
    }
  }

  /** `next(cycle(glyphs))` advances the cycle's position by one, wrapping after the last style. */
  function NextStyle(style: nat, ghost i: nat, n: nat): (next: nat)
    requires n > 0 && style == Cycle(i, n)
    ensures next == Cycle(i + 1, n)
  {
    CycleStep(i, n);
    if style + 1 == n then 0 else style + 1
  }

  /**
   * The document `generate(labels, glyphs)` returns, stated declaratively: series `i`
   * holds the points of the `i`-th band to appear, the `i`-th label and the `i`-th
   * style drawn from `cycle(glyphs)`; `zip` with `cycle(glyphs)` gives as many series as the
   * shorter of the bands and the labels, and none when `glyphs` is empty.
   */
  function Document(ps: seq<Record>, labels: LabelArg, glyphs: seq<Glyph>): LightCurveDoc
  {
    var bands := Bands(ps);
    var ls := LabelsFor(labels, |bands|);
    var n := if |glyphs| == 0 then 0 else Min(|bands|, |ls|);
    LightCurveDoc(seq(n, i requires 0 <= i < n =>
      Series(BandPoints(ps, bands[i]),
             SeriesOptions(glyphs[Cycle(i, |glyphs|)].color, glyphs[Cycle(i, |glyphs|)].glyph, ls[i]))))
  }

  /** Appending one record to the photometry extends that record's band only. */
  lemma CurveSnoc(ps: seq<Record>, p: Record, band: string)
    ensures CurveOf(ps + [p], band) ==
      var c := CurveOf(ps, band);
      if p.band == band
      then BandCurve(c.midpointMjdTai + [p.midpointMjdTai], c.psfFlux + [p.psfFlux], c.psfFluxErr + [p.psfFluxErr])
      else c
  {
    assert (ps + [p])[..|ps + [p]| - 1] == ps;
  }

  /** The bands grow by the new record's band when it has not been seen before. */
  lemma BandsSnoc(ps: seq<Record>, p: Record)
    ensures Bands(ps + [p]) == if p.band in Bands(ps) then Bands(ps) else Bands(ps) + [p.band]
  {
    assert (ps + [p])[..|ps + [p]| - 1] == ps;
  }

  /** `lcs` and its key order `order` hold exactly the per-band columns of `ps`. */
  ghost predicate Collected(order: seq<string>, lcs: map<string, BandCurve>, ps: seq<Record>)
  {
    && order == Bands(ps)
    && (forall b :: b in lcs <==> b in order)
    && (forall b :: b in lcs ==> lcs[b] == CurveOf(ps, b))
  }

  /** One step of the grouping loop keeps the columns in step with the records seen. */
  lemma CollectStep(order: seq<string>, lcs: map<string, BandCurve>, ps: seq<Record>, p: Record)
    requires Collected(order, lcs, ps)
    ensures var order' := if p.band in lcs then order else order + [p.band];
            var c := if p.band in lcs then lcs[p.band] else BandCurve([], [], []);
            Collected(order', lcs[p.band := BandCurve(c.midpointMjdTai + [p.midpointMjdTai], c.psfFlux + [p.psfFlux],
                                                      c.psfFluxErr + [p.psfFluxErr])], ps + [p])
  {
    BandsSnoc(ps, p);
    forall b
      ensures CurveOf(ps + [p], b) ==
        var c := CurveOf(ps, b);
        if p.band == b
        then BandCurve(c.midpointMjdTai + [p.midpointMjdTai], c.psfFlux + [p.psfFlux], c.psfFluxErr + [p.psfFluxErr])
        else c
    {
      CurveSnoc(ps, p, b);
    }
    if p.band !in lcs {
      EmptyCurve(ps, p.band);
    }
  }

  /**
   * The grouping loop of `JSONLocation.generate`: for each record, append its time,
   * flux and flux error to `lcs[band]`. A dict keeps its keys in insertion order, which
   * `order` records.
   */
  method GroupByBand(photometry: seq<Record>) returns (order: seq<string>, lcs: map<string, BandCurve>)
    ensures order == Bands(photometry)
    ensures forall b :: b in lcs <==> b in order
    ensures forall b :: b in lcs ==> lcs[b] == CurveOf(photometry, b)
  {
    order, lcs := [], map[];
    for i := 0 to |photometry|
      invariant Collected(order, lcs, photometry[..i])
    {
      var p := photometry[i];
      assert photometry[..i + 1] == photometry[..i] + [p];
      CollectStep(order, lcs, photometry[..i], p);
      if p.band !in lcs {
        order := order + [p.band];
        lcs := lcs[p.band := BandCurve([], [], [])];
      }
      var c := lcs[p.band];
      lcs := lcs[p.band := BandCurve(c.midpointMjdTai + [p.midpointMjdTai], c.psfFlux + [p.psfFlux],
                                     c.psfFluxErr + [p.psfFluxErr])];
    }
    assert photometry[..|photometry|] == photometry;
  }

  /**
   * The series loop of `JSONLocation.generate`:
   * `for lc, label, (color, glyph) in zip(lcs, labels, cycle(glyphs))` appends one series.
   */
  method ZipSeries(curves: seq<BandCurve>, ls: seq<string>, glyphs: seq<Glyph>) returns (data: seq<Series>)
    ensures |data| == if |glyphs| == 0 then 0 else Min(|curves|, |ls|)
    ensures forall k :: 0 <= k < |data| ==>
              data[k] == Series(SeriesData(curves[k].midpointMjdTai, curves[k].psfFlux),
                                SeriesOptions(glyphs[Cycle(k, |glyphs|)].color, glyphs[Cycle(k, |glyphs|)].glyph, ls[k]))
  {
    var n := if |glyphs| == 0 then 0 else Min(|curves|, |ls|);
    data := [];
    var style := 0;  // position of the cycle(glyphs) iterator
    for i := 0 to n
      invariant |data| == i
      invariant |glyphs| > 0 ==> style == Cycle(i, |glyphs|)
      invariant forall k :: 0 <= k < i ==>
                  data[k] == Series(SeriesData(curves[k].midpointMjdTai, curves[k].psfFlux),
                                    SeriesOptions(glyphs[Cycle(k, |glyphs|)].color, glyphs[Cycle(k, |glyphs|)].glyph, ls[k]))
    {
      var g := glyphs[style];
      data := data + [Series(SeriesData(curves[i].midpointMjdTai, curves[i].psfFlux),
                             SeriesOptions(g.color, g.glyph, ls[i]))];
      style := NextStyle(style, i, |glyphs|);
    }
  }

  /**
   * `JSONLocation.generate`: group the photometry by band, take the groups in key
   * order, broadcast a scalar label, and zip.
   */
  method GenerateLightCurve(photometry: seq<Record>, labels: LabelArg := Scalar("Lightcurve"),
                            glyphs: seq<Glyph> := GLYPHS)
    returns (doc: LightCurveDoc)
    ensures doc == Document(photometry, labels, glyphs)
  {
    var order, lcs := GroupByBand(photometry);
    // lcs = list(lcs.values())
    var curves := seq(|order|, k requires 0 <= k < |order| => lcs[order[k]]);
    var ls := LabelsFor(labels, |curves|);
    var data := ZipSeries(curves, ls, glyphs);
    doc := LightCurveDoc(data);
    ghost var target := Document(photometry, labels, glyphs);
    assert |target.data| == |data|;
    forall k | 0 <= k < |data| ensures data[k] == target.data[k] {
      ZipColumns(photometry, order[k]);
    }
  }

  /** Zipping a band's two columns loses nothing: they have one entry per record. */
  lemma ZipColumns(ps: seq<Record>, band: string)
    ensures SeriesData(CurveOf(ps, band).midpointMjdTai, CurveOf(ps, band).psfFlux) == BandPoints(ps, band)
  {
  }

  /** A band never seen so far has empty columns. */
  lemma {:induction false} EmptyCurve(ps: seq<Record>, band: string)
    requires band !in Bands(ps)
    ensures CurveOf(ps, band) == BandCurve([], [], [])
  {
    BandsHaveRecords(ps, band);
  }

  /** A band is listed exactly when some record carries it. */
  lemma {:induction false} BandsHaveRecords(ps: seq<Record>, band: string)
    ensures band in Bands(ps) <==> BandRecords(ps, band) != []
    ensures band in Bands(ps) <==> exists k :: 0 <= k < |ps| && ps[k].band == band
  {
    if ps != [] {
      var init := ps[..|ps| - 1];
      BandsHaveRecords(init, band);
      assert ps == init + [ps[|ps| - 1]];
      if exists k :: 0 <= k < |ps| && ps[k].band == band {
        var k :| 0 <= k < |ps| && ps[k].band == band;
        if k < |ps| - 1 { assert init[k].band == band; }
      }
      if exists k :: 0 <= k < |init| && init[k].band == band {
        var k :| 0 <= k < |init| && init[k].band == band;
        assert ps[k].band == band;
      }
    }
  }

  /** No band is listed twice. */
  lemma {:induction false} BandsDistinct(ps: seq<Record>)
    ensures forall i, j :: 0 <= i < j < |Bands(ps)| ==> Bands(ps)[i] != Bands(ps)[j]
  {
    if ps != [] {
      BandsDistinct(ps[..|ps| - 1]);
    }
  }

  /**
   * Bands are listed in order of first appearance: wherever a later-listed band occurs,
   * an earlier-listed band has already occurred.
   */
  lemma {:induction false} BandsFirstSeen(ps: seq<Record>)
    ensures forall i, j, k :: 0 <= i < j < |Bands(ps)| && 0 <= k < |ps| && ps[k].band == Bands(ps)[j] ==>
              exists m :: 0 <= m < k && ps[m].band == Bands(ps)[i]
  {
    if ps != [] {
      var init, p := ps[..|ps| - 1], ps[|ps| - 1];
      assert ps == init + [p];
      BandsFirstSeen(init);
      BandsSnoc(init, p);
      var bs, earlier := Bands(ps), Bands(init);
      forall i, j, k | 0 <= i < j < |bs| && 0 <= k < |ps| && ps[k].band == bs[j]
        ensures exists m :: 0 <= m < k && ps[m].band == bs[i]
      {
        BandsHaveRecords(init, bs[i]);
        var m :| 0 <= m < |init| && init[m].band == bs[i];
        if k < |init| {
          assert init[k].band == bs[j];
          BandsHaveRecords(init, bs[j]);
          assert bs[j] in earlier;
          assert j < |earlier|;
          assert exists m' :: 0 <= m' < k && init[m'].band == earlier[i];
          var m' :| 0 <= m' < k && init[m'].band == earlier[i];
          assert ps[m'].band == bs[i];
        } else {
          assert ps[m].band == bs[i];
        }
      }
    }
  }

  /** The number of records held by the series of the bands `bs`. */
  function CountRecords(ps: seq<Record>, bs: seq<string>): nat
  {
    if bs == [] then 0 else CountRecords(ps, bs[..|bs| - 1]) + |BandRecords(ps, bs[|bs| - 1])|
  }

  lemma {:induction false} CountRecordsSnoc(ps: seq<Record>, p: Record, bs: seq<string>)
    ensures CountRecords(ps + [p], bs) == CountRecords(ps, bs) + multiset(bs)[p.band]
  {
    assert (ps + [p])[..|ps + [p]| - 1] == ps;
    if bs != [] {
      CountRecordsSnoc(ps, p, bs[..|bs| - 1]);
      assert bs == bs[..|bs| - 1] + [bs[|bs| - 1]];
    }
  }

  lemma {:induction false} DistinctOccursOnce(bs: seq<string>, b: string)
    requires forall i, j :: 0 <= i < j < |bs| ==> bs[i] != bs[j]
    ensures multiset(bs)[b] == if b in bs then 1 else 0
  {
    if bs != [] {
      var init := bs[..|bs| - 1];
      assert bs == init + [bs[|bs| - 1]];
      DistinctOccursOnce(init, b);
    }
  }

  /**
   * Every record lands in exactly one series: the series of all bands together hold
   * as many points as there are records.
   */
  lemma {:induction false} EveryRecordEmittedOnce(ps: seq<Record>)
    ensures CountRecords(ps, Bands(ps)) == |ps|
  {
    if ps != [] {
      var init, p := ps[..|ps| - 1], ps[|ps| - 1];
      assert ps == init + [p];
      EveryRecordEmittedOnce(init);
      BandsSnoc(init, p);
      BandsDistinct(init);
      DistinctOccursOnce(Bands(init), p.band);
      CountRecordsSnoc(init, p, Bands(init));
      if p.band !in Bands(init) {
        BandsHaveRecords(init, p.band);
        var bs := Bands(init) + [p.band];
        assert bs[..|bs| - 1] == Bands(init);
      }
    }
  }

  /**
   * With a scalar label there is one series per band, each carrying that label; with a
   * list of labels the series stop at the shorter of bands and labels.
   */
  lemma SeriesCount(ps: seq<Record>, labels: LabelArg, glyphs: seq<Glyph>)
    requires |glyphs| > 0
    ensures labels.Scalar? ==> |Document(ps, labels, glyphs).data| == |Bands(ps)|
    ensures labels.Scalar? ==> forall i :: 0 <= i < |Document(ps, labels, glyphs).data| ==>
              Document(ps, labels, glyphs).data[i].seriesOptions.labelText == labels.text
    ensures labels.LabelList? ==> |Document(ps, labels, glyphs).data| == Min(|Bands(ps)|, |labels.labels|)
  {
  }

  /** Styles are reused cyclically: series `i` and `i + |glyphs|` look the same. */
  lemma StylesCycle(ps: seq<Record>, labels: LabelArg, glyphs: seq<Glyph>, i: nat)
    requires i + |glyphs| < |Document(ps, labels, glyphs).data|
    ensures Document(ps, labels, glyphs).data[i + |glyphs|].seriesOptions.color ==
            Document(ps, labels, glyphs).data[i].seriesOptions.color
    ensures Document(ps, labels, glyphs).data[i + |glyphs|].seriesOptions.glyph ==
            Document(ps, labels, glyphs).data[i].seriesOptions.glyph
  {
    var d := Document(ps, labels, glyphs);
    assert Cycle(i + |glyphs|, |glyphs|) == Cycle(i, |glyphs|);
    assert d.data[i + |glyphs|].seriesOptions.color == glyphs[Cycle(i + |glyphs|, |glyphs|)].color;
  }

  /** `ps` and `qs` differ at most in their `psfFluxErr` values. */
  predicate SameButFluxErr(ps: seq<Record>, qs: seq<Record>)
  {
    |ps| == |qs| && forall k :: 0 <= k < |ps| ==> qs[k] == ps[k].(psfFluxErr := qs[k].psfFluxErr)
  }

  lemma {:induction false} SameButFluxErrBands(ps: seq<Record>, qs: seq<Record>, band: string)
    requires SameButFluxErr(ps, qs)
    ensures Bands(ps) == Bands(qs)
    ensures SameButFluxErr(BandRecords(ps, band), BandRecords(qs, band))
  {
    if ps != [] {
      SameButFluxErrBands(ps[..|ps| - 1], qs[..|qs| - 1], band);
    }
  }

  /** `psfFluxErr` is collected but never emitted: the document does not depend on it. */
  lemma FluxErrNotEmitted(ps: seq<Record>, qs: seq<Record>, labels: LabelArg, glyphs: seq<Glyph>)
    requires SameButFluxErr(ps, qs)
    ensures Document(ps, labels, glyphs) == Document(qs, labels, glyphs)
  {
    SameButFluxErrBands(ps, qs, "");
    var d, e := Document(ps, labels, glyphs), Document(qs, labels, glyphs);
    assert |d.data| == |e.data|;
    forall i | 0 <= i < |d.data| ensures d.data[i] == e.data[i] {
      var b := Bands(ps)[i];
      SameButFluxErrBands(ps, qs, b);
      assert BandPoints(ps, b) == BandPoints(qs, b);
    }
  }
}
