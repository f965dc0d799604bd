/**
 * The converter's entry point: a Mapbox GL style's `layers` list becomes the
 * renderer styles and labeling styles of a QGIS vector tile layer, one
 * layer at a time and in the style's order, with every warning pushed on
 * the way collected in the converter's warning list.
 */
module Converter {
  import opened Text
  import opened Json
  import opened Context
  import opened Expressions
  import opened Fill
  import opened Line
  import opened Symbol

  /** The outcome convert reports. */
  datatype Result = Success | NoLayerList

  const NoLayerListError := "Could not find layers list in JSON"

  function UnknownLayerWarning(layerType: string): string
  {
    "Skipping unknown layer type: " + layerType
  }

  /** What every style made from one layer shares. */
  datatype StyleHeader = StyleHeader(
    styleName: string,
    layerName: string,
    filter: string,
    minZoom: int,
    maxZoom: int,
    enabled: bool)

  /** The symbol a renderer style draws with. */
  datatype RendererSymbol =
    | FillStyle(fill: FillSymbol)
    | LineStyle(line: LineSymbol)
    | MarkerStyle(marker: SymbolRenderer)

  datatype RendererStyle = RendererStyle(header: StyleHeader, symbol: RendererSymbol)

  datatype LabelingStyle = LabelingStyle(header: StyleHeader, settings: LabelSettings)

  /** The layer types the converter turns into styles. */
  predicate KnownType(layerType: string)
  {
    layerType == "fill" || layerType == "line" || layerType == "symbol"
  }

  function LayerType(layer: Json): string
  {
    ToText(Get(ToObject(layer), "type"))
  }

  /** A zoom bound: the layer's integer value, or -1 (no bound) when the key is absent. */
  function Zoom(layer: map<string, Json>, key: string): (z: int)
    ensures key !in layer ==> z == -1
    ensures key in layer ==> z == ToInt(layer[key])
  {
    assert ToInt(Str("-1")) == -1 by {
      ParseIntToString(-1);
      assert IntToString(-1) == "-1";
    }
    ToInt(GetOr(layer, key, Str("-1")))
  }

  /** The header of the styles made from `layer`, whose filter converted to `filter`. */
  function Header(layer: map<string, Json>, filter: string): (h: StyleHeader)
    ensures h.styleName == ToText(Get(layer, "id")) && h.layerName == ToText(Get(layer, "source-layer"))
    ensures h.filter == filter
    ensures "minzoom" !in layer ==> h.minZoom == -1
    ensures "maxzoom" !in layer ==> h.maxZoom == -1
    ensures "minzoom" in layer ==> h.minZoom == ToInt(layer["minzoom"])
    ensures "maxzoom" in layer ==> h.maxZoom == ToInt(layer["maxzoom"])
    ensures !h.enabled <==> "visibility" in layer && ToText(layer["visibility"]) == "none"
  {
    StyleHeader(ToText(Get(layer, "id")), ToText(Get(layer, "source-layer")), filter,
                Zoom(layer, "minzoom"), Zoom(layer, "maxzoom"), ToText(Get(layer, "visibility")) != "none")
  }

  /** What the parser for a known layer type gives: an optional renderer symbol and optional label settings. */
  datatype Parsed = Parsed(symbol: Option<RendererSymbol>, labels: Option<LabelSettings>)

  /**
   * The parser for the layer's type: parseFillLayer, parseLineLayer or
   * parseSymbolLayer. Only symbol layers can give labels; other types give
   * nothing.
   */
  function Dispatch(layer: map<string, Json>, layerType: string, ctx: ConversionContext): (r: Warned<Parsed>)
    ensures !KnownType(layerType) ==> r == Warned(Parsed(None, None), [])
    ensures layerType == "fill" ==>
      var f := ParseFillLayer(layer, ctx);
      && r.warnings == f.warnings && r.value.labels.None?
      && (r.value.symbol.Some? <==> f.value.Some?)
      && (r.value.symbol.Some? ==> r.value.symbol.value == FillStyle(f.value.value))
    ensures layerType == "line" ==>
      var l := ParseLineLayer(layer, ctx);
      && r.warnings == l.warnings && r.value.labels.None?
      && (r.value.symbol.Some? <==> l.value.Some?)
      && (r.value.symbol.Some? ==> r.value.symbol.value == LineStyle(l.value.value))
    ensures layerType == "symbol" ==>
      var s := ParseSymbolLayer(layer, ctx);
      && r.warnings == s.warnings && r.value.labels == s.value.labeling
      && (r.value.symbol.Some? <==> s.value.renderer.Some?)
      && (r.value.symbol.Some? ==> r.value.symbol.value == MarkerStyle(s.value.renderer.value))
  {
    if layerType == "fill" then
      var f := ParseFillLayer(layer, ctx);
      Warned(Parsed(if f.value.Some? then Some(FillStyle(f.value.value)) else None, None), f.warnings)
    else if layerType == "line" then
      var l := ParseLineLayer(layer, ctx);
      Warned(Parsed(if l.value.Some? then Some(LineStyle(l.value.value)) else None, None), l.warnings)
    else if layerType == "symbol" then
      var s := ParseSymbolLayer(layer, ctx);
      Warned(Parsed(if s.value.renderer.Some? then Some(MarkerStyle(s.value.renderer.value)) else None, s.value.labeling), s.warnings)
    else Warned(Parsed(None, None), [])
  }

  /**
   * The converters the loop over the layers hands work to: one for filter
   * expressions and one per layer type. The loop below is stated for any
   * pair, so what it promises does not depend on how a filter or a layer is
   * converted; `Converters` is the pair convert uses.
   */
  datatype Parsers = Parsers(
    filter: seq<Json> -> Warned<string>,
    layer: (map<string, Json>, string) -> Warned<Parsed>)

  function Converters(ctx: ConversionContext): Parsers
  {
    Parsers(expr => ParseExpression(expr), (layer, layerType) => Dispatch(layer, layerType, ctx))
  }

  /** The layer's filter as a QGIS expression: the empty expression when it has none. */
  function Filter(layer: map<string, Json>, parsers: Parsers): (r: Warned<string>)
    ensures "filter" !in layer ==> r == Warned("", [])
    ensures "filter" in layer ==> r == parsers.filter(ToList(layer["filter"]))
  {
    if "filter" in layer then parsers.filter(ToList(layer["filter"])) else Warned("", [])
  }

  /**
   * What one iteration of parseLayers makes of a layer, before any
   * bookkeeping: a background layer is skipped; a layer of unknown type
   * gives only its type and the warnings its filter pushed; a known layer
   * gives its styles and everything it pushed. None of it depends on the
   * layers before it.
   */
  datatype Outcome<R, L> =
    | Skipped
    | UnknownType(layerType: string, filterWarnings: seq<string>)
    | Converted(renderers: seq<R>, labelings: seq<L>, pushed: seq<string>)

  /** A layer's outcome in this converter: QGIS renderer and labeling styles. */
  type LayerResult = Outcome<RendererStyle, LabelingStyle>

  /** The renderer styles an outcome contributes. */
  function Renderers<R, L>(o: Outcome<R, L>): seq<R>
  {
    if o.Converted? then o.renderers else []
  }

  /** The labeling styles an outcome contributes. */
  function Labelings<R, L>(o: Outcome<R, L>): seq<L>
  {
    if o.Converted? then o.labelings else []
  }

  /** Everything a layer pushed, in the order it pushed it. */
  function Pushed<R, L>(o: Outcome<R, L>): seq<string>
  {
    match o
    case Skipped => []
    case UnknownType(t, f) => [UnknownLayerWarning(t)] + f
    case Converted(_, _, w) => w
  }

  /**
   * One layer's outcome. A background layer is skipped before its filter is
   * read. Otherwise the filter is converted first; a layer of unknown type
   * stops there. A known layer gives at most one renderer style and at most
   * one labeling style, both under the layer's header, and pushes its
   * filter's warnings and then its parser's.
   */
  function LayerOutcome(layer: Json, parsers: Parsers): (o: LayerResult)
    ensures o.Skipped? <==> LayerType(layer) == "background"
    ensures o.UnknownType? <==> LayerType(layer) != "background" && !KnownType(LayerType(layer))
    ensures o.UnknownType? ==> o == UnknownType(LayerType(layer), Filter(ToObject(layer), parsers).warnings)
    ensures o.Converted? ==>
      var m := ToObject(layer);
      var filter := Filter(m, parsers);
      var p := parsers.layer(m, LayerType(layer));
      var h := Header(m, filter.value);
      && o.pushed == filter.warnings + p.warnings
      && (|o.renderers| <= 1 && |o.labelings| <= 1)
      && (|o.renderers| == 1 <==> p.value.symbol.Some?) && (|o.renderers| == 1 ==> o.renderers[0] == RendererStyle(h, p.value.symbol.value))
      && (|o.labelings| == 1 <==> p.value.labels.Some?) && (|o.labelings| == 1 ==> o.labelings[0] == LabelingStyle(h, p.value.labels.value))
  {
    var t := LayerType(layer);
    if t == "background" then Skipped
    else
      var m := ToObject(layer);
      var filter := Filter(m, parsers);
      if !KnownType(t) then UnknownType(t, filter.warnings)
      else
        var p := parsers.layer(m, t);
        var h := Header(m, filter.value);
        Converted((if p.value.symbol.Some? then [RendererStyle(h, p.value.symbol.value)] else []),
                  (if p.value.labels.Some? then [LabelingStyle(h, p.value.labels.value)] else []),
                  filter.warnings + p.warnings)
  }

  /** Every layer's outcome, in order. */
  function Outcomes(layers: seq<Json>, parsers: Parsers): (os: seq<LayerResult>)
    ensures |os| == |layers|
    ensures forall i :: 0 <= i < |layers| ==> os[i] == LayerOutcome(layers[i], parsers)
  {
    seq(|layers|, i requires 0 <= i < |layers| => LayerOutcome(layers[i], parsers))
  }

  // ---------------------------------------------------------------------
  // parseLayers

  /**
   * The converter part way through the layer list: the styles so far, the
   * converter's warnings, and the warnings still held by the conversion
   * context (pushed but not yet collected).
   */
  datatype ConverterState<R, L> = ConverterState(
    renderers: seq<R>,
    labelings: seq<L>,
    warnings: seq<string>,
    pending: seq<string>)

  function Fresh<R, L>(): ConverterState<R, L>
  {
    ConverterState([], [], [], [])
  }

  /**
   * The bookkeeping of one iteration. A layer of unknown type puts its
   * warning straight into the converter's list and leaves its filter's
   * warnings in the context, to be collected with the next known layer. A
   * known layer appends its styles and then collects every warning the
   * context holds.
   */
  function Step<R, L>(s: ConverterState<R, L>, o: Outcome<R, L>): (t: ConverterState<R, L>)
    ensures t.renderers == s.renderers + Renderers(o) && t.labelings == s.labelings + Labelings(o)
    ensures !o.UnknownType? && s.pending == [] ==> t.pending == [] && t.warnings == s.warnings + Pushed(o)
  {
    match o
    case Skipped => s
    case UnknownType(layerType, held) =>
      s.(warnings := s.warnings + [UnknownLayerWarning(layerType)], pending := s.pending + held)
    case Converted(renderers, labelings, pushed) =>
      ConverterState(s.renderers + renderers, s.labelings + labelings, s.warnings + (s.pending + pushed), [])
  }

  /** One iteration loses no warning: what the layer pushed is now collected or held. */
  lemma StepKeepsWarnings<R, L>(s: ConverterState<R, L>, o: Outcome<R, L>)
    ensures var t := Step(s, o);
      multiset(t.warnings + t.pending) == multiset(s.warnings + s.pending) + multiset(Pushed(o))
  {
    var t := Step(s, o);
    match o
    case Skipped =>
    case UnknownType(layerType, held) =>
      assert t.warnings + t.pending == s.warnings + [UnknownLayerWarning(layerType)] + (s.pending + held);
    case Converted(_, _, pushed) =>
      assert t.warnings + t.pending == s.warnings + s.pending + pushed;
  }

  /** The converter after the given outcomes, taken in order from a fresh start. */
  function Collect<R, L>(os: seq<Outcome<R, L>>): ConverterState<R, L>
    decreases |os|
  {
    if |os| == 0 then Fresh() else Step(Collect(os[..|os| - 1]), os[|os| - 1])
  }

  /** The converter after the layers in `layers`. */
  function ParsedLayers(layers: seq<Json>, parsers: Parsers): ConverterState<RendererStyle, LabelingStyle>
  {
    Collect(Outcomes(layers, parsers))
  }

  /** parseLayers: the loop over the layer list. */
  method ParseLayers(layers: seq<Json>, parsers: Parsers) returns (renderers: seq<RendererStyle>, labelings: seq<LabelingStyle>, warnings: seq<string>, pending: seq<string>)
    ensures ConverterState(renderers, labelings, warnings, pending) == ParsedLayers(layers, parsers)
    ensures renderers == FlatMap(Outcomes(layers, parsers), Renderers)
    ensures labelings == FlatMap(Outcomes(layers, parsers), Labelings)
  {
    var os := Outcomes(layers, parsers);
    var s := Fresh();
    var i := 0;
    while i < |layers|
      invariant i <= |layers|
      invariant s == Collect(os[..i])
    {
      CollectNext(os, i);
      s := Step(s, LayerOutcome(layers[i], parsers));
      i := i + 1;
    }
    assert os[..i] == os;
    RenderersInLayerOrder(os);
    LabelingsInLayerOrder(os);
    renderers, labelings, warnings, pending := s.renderers, s.labelings, s.warnings, s.pending;
  }

  // ---------------------------------------------------------------------
  // convert

  /** What convert leaves behind: its result, its error text, the styles and warnings. */
  datatype Conversion = Conversion(
    result: Result,
    error: string,
    renderers: seq<RendererStyle>,
    labelings: seq<LabelingStyle>,
    warnings: seq<string>,
    contextWarnings: seq<string>)

  /**
   * convert: a style without a `layers` member fails with an error and
   * converts nothing; otherwise its layer list (empty when `layers` is not a
   * list) is converted, layer by layer, and the result is success.
   */
  function Convert(style: map<string, Json>, ctx: ConversionContext): (c: Conversion)
    ensures c.result == NoLayerList <==> "layers" !in style
    ensures c.result == NoLayerList ==> c == Conversion(NoLayerList, NoLayerListError, [], [], [], [])
    ensures c.result == Success ==>
      var os := Outcomes(ToList(style["layers"]), Converters(ctx));
      && c.error == ""
      && c.renderers == FlatMap(os, Renderers)
      && c.labelings == FlatMap(os, Labelings)
      && multiset(c.warnings + c.contextWarnings) == multiset(FlatMap(os, Pushed))
  {
    if "layers" !in style then Conversion(NoLayerList, NoLayerListError, [], [], [], [])
    else
      var os := Outcomes(ToList(style["layers"]), Converters(ctx));
      var s := Collect(os);
      RenderersInLayerOrder(os);
      LabelingsInLayerOrder(os);
      NoWarningLost(os);
      Conversion(Success, "", s.renderers, s.labelings, s.warnings, s.pending)
  }

  // ---------------------------------------------------------------------
  // Properties

  /** The elements of `f(x)` for each `x` of `xs` in turn. */
  function FlatMap<A, T>(xs: seq<A>, f: A -> seq<T>): seq<T>
    decreases |xs|
  {
    if |xs| == 0 then [] else f(xs[0]) + FlatMap(xs[1..], f)
  }

  lemma {:induction false} FlatMapAppend<A, T>(xs: seq<A>, x: A, f: A -> seq<T>)
    ensures FlatMap(xs + [x], f) == FlatMap(xs, f) + f(x)
    decreases |xs|
  {
    if |xs| > 0 {
      assert (xs + [x])[1..] == xs[1..] + [x];
      FlatMapAppend(xs[1..], x, f);
    }
  }

  /** The converter after one more outcome. */
  lemma CollectNext<R, L>(os: seq<Outcome<R, L>>, i: nat)
    requires i < |os|
    ensures Collect(os[..i + 1]) == Step(Collect(os[..i]), os[i])
  {
    assert os[..i + 1][..i] == os[..i];
  }

  /**
   * The renderer styles come out in the order of the layers they were made
   * from: each layer's renderer style (if any) in turn.
   */
  lemma {:induction false} RenderersInLayerOrder<R, L>(os: seq<Outcome<R, L>>)
    ensures Collect(os).renderers == FlatMap(os, Renderers)
    decreases |os|
  {
    if |os| > 0 {
      var init, last := os[..|os| - 1], os[|os| - 1];
      RenderersInLayerOrder(init);
      assert os == init + [last];
      FlatMapAppend(init, last, Renderers);
    }
  }

  /** The labeling styles, likewise, come out in layer order. */
  lemma {:induction false} LabelingsInLayerOrder<R, L>(os: seq<Outcome<R, L>>)
    ensures Collect(os).labelings == FlatMap(os, Labelings)
    decreases |os|
  {
    if |os| > 0 {
      var init, last := os[..|os| - 1], os[|os| - 1];
      LabelingsInLayerOrder(init);
      assert os == init + [last];
      FlatMapAppend(init, last, Labelings);
    }
  }

  /** Each layer gives at most one renderer style and at most one labeling style. */
  lemma {:induction false} AtMostOneStylePerLayer(layers: seq<Json>, parsers: Parsers)
    ensures |ParsedLayers(layers, parsers).renderers| <= |layers|
    ensures |ParsedLayers(layers, parsers).labelings| <= |layers|
    decreases |layers|
  {
    if |layers| > 0 {
      var init := layers[..|layers| - 1];
      AtMostOneStylePerLayer(init, parsers);
      assert Outcomes(layers, parsers)[..|layers| - 1] == Outcomes(init, parsers);
    }
  }

  /**
   * The converter's warnings plus those left in the context are exactly the
   * warnings the layers pushed: none is lost and none is invented, though an
   * unknown layer's filter warnings move behind later ones.
   */
  lemma {:induction false} NoWarningLost<R, L>(os: seq<Outcome<R, L>>)
    ensures multiset(Collect(os).warnings + Collect(os).pending) == multiset(FlatMap(os, Pushed))
    decreases |os|
  {
    if |os| > 0 {
      var init, last := os[..|os| - 1], os[|os| - 1];
      NoWarningLost(init);
      StepKeepsWarnings(Collect(init), last);
      assert os == init + [last];
      FlatMapAppend(init, last, Pushed);
    }
  }

  /**
   * Without layers of unknown type, the warnings are collected in the order
   * they were pushed and none stays behind in the context.
   */
  lemma {:induction false} KnownLayersWarnInOrder<R, L>(os: seq<Outcome<R, L>>)
    requires forall i :: 0 <= i < |os| ==> !os[i].UnknownType?
    ensures Collect(os).warnings == FlatMap(os, Pushed)
    ensures Collect(os).pending == []
    decreases |os|
  {
    if |os| > 0 {
      var init, last := os[..|os| - 1], os[|os| - 1];
      KnownLayersWarnInOrder(init);
      assert os == init + [last];
      FlatMapAppend(init, last, Pushed);
    }
  }

  /**
   * A layer of unknown type followed by a known layer: the unknown-type
   * warning comes first, and the unknown layer's filter warnings stay in
   * the context until they are collected together with the known layer's
   * own.
   */
  lemma UnknownThenKnown<R, L>(unknown: Outcome<R, L>, known: Outcome<R, L>)
    requires unknown.UnknownType? && known.Converted?
    ensures Collect([unknown]).pending == unknown.filterWarnings
    ensures Collect([unknown, known]).warnings == [UnknownLayerWarning(unknown.layerType)] + unknown.filterWarnings + known.pushed
    ensures Collect([unknown, known]).pending == []
  {
    var first := Step(Fresh(), unknown);
    assert first.warnings == [UnknownLayerWarning(unknown.layerType)] && first.pending == unknown.filterWarnings;
    assert [unknown][..0] == [];
    assert Collect([unknown]) == first;
    assert [unknown, known][..1] == [unknown];
    var second := Step(first, known);
    assert Collect([unknown, known]) == second;
    assert second.warnings == first.warnings + (first.pending + known.pushed);
  }

  /** The same, for the layers themselves. */
  lemma UnknownLayerDefersFilterWarnings(unknown: Json, known: Json, parsers: Parsers)
    requires LayerType(unknown) != "background" && !KnownType(LayerType(unknown)) && KnownType(LayerType(known))
    ensures ParsedLayers([unknown], parsers).pending == Filter(ToObject(unknown), parsers).warnings
    ensures ParsedLayers([unknown, known], parsers).warnings ==
      [UnknownLayerWarning(LayerType(unknown))] + Filter(ToObject(unknown), parsers).warnings + Pushed(LayerOutcome(known, parsers))
    ensures ParsedLayers([unknown, known], parsers).pending == []
  {
    var u, k := LayerOutcome(unknown, parsers), LayerOutcome(known, parsers);
    assert Outcomes([unknown], parsers) == [u];
    assert Outcomes([unknown, known], parsers) == [u, k];
    UnknownThenKnown(u, k);
  }
}
