/**
  The contrast probe: every ancestor's background and group opacity is composited from the root
  down to an element, giving the ink and surface colours seen on screen and their contrast ratio.
  Channels run from 0 to 255, alpha and opacity from 0 to 1.
 */
module ContrastCompositor {
  import opened Wrappers

  /** The red, green and blue channels. */
  type Rgb = c: seq<real> | |c| == 3 witness [0.0, 0.0, 0.0]

  datatype Rgba = Rgba(rgb: Rgb, alpha: real)

  /** What the probe reads of one element's computed style. */
  datatype Element = Element(background: Rgba, opacity: real)

  datatype Pair = Pair(ink: Rgb, surface: Rgb)

  const WHITE: Rgb := [255.0, 255.0, 255.0]
  const CLEAR := Rgba([0.0, 0.0, 0.0], 0.0)

  // ---- the probe's arithmetic ---------------------------------------------------------------

  function Mix(front: real, alpha: real, back: real): real {
    front * alpha + back * (1.0 - alpha)
  }

  function Over(front: Rgba, back: Rgb): Rgb {
    seq(3, i requires 0 <= i < 3 => Mix(front.rgb[i], front.alpha, back[i]))
  }

  function Paint(chain: seq<Element>, ink: Rgba, back: Rgb): Pair
    requires chain != []
  {
    var surface := Over(chain[0].background, back);
    var pair := if |chain| > 1 then Paint(chain[1..], ink, surface) else Pair(Over(ink, surface), surface);
    Pair(Over(Rgba(pair.ink, chain[0].opacity), back), Over(Rgba(pair.surface, chain[0].opacity), back))
  }

  // ---- the standard: isolated groups in premultiplied RGBA ------------------------------------

  /** An off-screen image of one pixel, premultiplied by its alpha. */
  datatype Layer = Layer(premultiplied: Rgb, alpha: real)

  function Scale(c: Rgb, k: real): Rgb {
    seq(3, i requires 0 <= i < 3 => c[i] * k)
  }

  function Add(c: Rgb, d: Rgb): Rgb {
    seq(3, i requires 0 <= i < 3 => c[i] + d[i])
  }

  function Premultiply(c: Rgba): Layer {
    Layer(Scale(c.rgb, c.alpha), c.alpha)
  }

  function SourceOver(top: Layer, bottom: Layer): Layer {
    Layer(Add(top.premultiplied, Scale(bottom.premultiplied, 1.0 - top.alpha)),
          top.alpha + bottom.alpha * (1.0 - top.alpha))
  }

  function Fade(layer: Layer, opacity: real): Layer {
    Layer(Scale(layer.premultiplied, opacity), layer.alpha * opacity)
  }

  /** Each element with all it contains is one group, drawn on nothing and then faded as a whole. */
  function Group(chain: seq<Element>, content: Rgba): Layer
    requires chain != []
  {
    var inner := if |chain| > 1 then Group(chain[1..], content) else Premultiply(content);
    Fade(SourceOver(inner, Premultiply(chain[0].background)), chain[0].opacity)
  }

  function Flatten(layer: Layer, back: Rgb): Rgb {
    Add(layer.premultiplied, Scale(back, 1.0 - layer.alpha))
  }

  /** One channel of one group: painting on the backdrop and blending back is fading the isolated group. */
  lemma ChannelGroup(top: real, topAlpha: real, bg: real, bgAlpha: real, opacity: real, back: real,
                     under: real, painted: real, bgLayer: real, layer: real, layerAlpha: real, fadedAlpha: real)
    requires under == Mix(bg, bgAlpha, back) && painted == top + under * (1.0 - topAlpha)
    requires bgLayer == bg * bgAlpha && layer == top + bgLayer * (1.0 - topAlpha)
    requires layerAlpha == topAlpha + bgAlpha * (1.0 - topAlpha) && fadedAlpha == layerAlpha * opacity
    ensures Mix(painted, opacity, back) == layer * opacity + back * (1.0 - fadedAlpha)
  {
    var rest := 1.0 - topAlpha;
    var k := (1.0 - bgAlpha) * rest;
    assert k == 1.0 - layerAlpha;
    assert painted == layer + back * k by {
      assert under * rest == bgLayer * rest + back * ((1.0 - bgAlpha) * rest);
    }
    assert painted * opacity == layer * opacity + back * (k * opacity);
    assert k * opacity == opacity - fadedAlpha;
  }

  /** One element: drawing a faded isolated group onto `back`, or its content onto the painted surface. */
  lemma GroupStep(inner: Layer, e: Element, back: Rgb)
    ensures Over(Rgba(Flatten(inner, Over(e.background, back)), e.opacity), back)
         == Flatten(Fade(SourceOver(inner, Premultiply(e.background)), e.opacity), back)
  {
    hide Over, Flatten;
    var painted := Over(Rgba(Flatten(inner, Over(e.background, back)), e.opacity), back);
    var grouped := Flatten(Fade(SourceOver(inner, Premultiply(e.background)), e.opacity), back);
    forall i | 0 <= i < 3 ensures painted[i] == grouped[i] {
      GroupStepAt(inner, e, back, i);
    }
  }

  lemma GroupStepAt(inner: Layer, e: Element, back: Rgb, i: nat)
    requires i < 3
    ensures Over(Rgba(Flatten(inner, Over(e.background, back)), e.opacity), back)[i]
         == Flatten(Fade(SourceOver(inner, Premultiply(e.background)), e.opacity), back)[i]
  {
    hide Mix;
    var bg, a := e.background, inner.alpha;
    var surface := Over(bg, back);
    var lower := Premultiply(bg);
    var layer := SourceOver(inner, lower);
    ChannelGroup(inner.premultiplied[i], a, bg.rgb[i], bg.alpha, e.opacity, back[i], surface[i],
                 Flatten(inner, surface)[i], lower.premultiplied[i], layer.premultiplied[i], layer.alpha,
                 Fade(layer, e.opacity).alpha);
  }

  /** The probe's recursion computes exactly what isolated-group compositing defines. */
  lemma {:induction false} PaintIsIsolatedGroups(chain: seq<Element>, ink: Rgba, back: Rgb)
    requires chain != []
    ensures Paint(chain, ink, back) == Pair(Flatten(Group(chain, ink), back), Flatten(Group(chain, CLEAR), back))
    decreases |chain|
  {
    var surface := Over(chain[0].background, back);
    if |chain| > 1 {
      PaintIsIsolatedGroups(chain[1..], ink, surface);
      GroupStep(Group(chain[1..], ink), chain[0], back);
      GroupStep(Group(chain[1..], CLEAR), chain[0], back);
    } else {
      PaintedInk(ink, surface);
      assert surface == Flatten(Premultiply(CLEAR), surface);
      GroupStep(Premultiply(ink), chain[0], back);
      GroupStep(Premultiply(CLEAR), chain[0], back);
    }
  }

  lemma PaintedInk(ink: Rgba, surface: Rgb)
    ensures Over(ink, surface) == Flatten(Premultiply(ink), surface)
  {
    forall i | 0 <= i < 3 ensures Over(ink, surface)[i] == Flatten(Premultiply(ink), surface)[i] {
      assert Premultiply(ink).premultiplied[i] == ink.rgb[i] * ink.alpha;
    }
  }

  // ---- a closed form for the visible difference -----------------------------------------------

  /** The product of every opacity in the chain and the ink's own alpha. */
  function Visibility(chain: seq<Element>, alpha: real): real {
    if chain == [] then alpha else chain[0].opacity * Visibility(chain[1..], alpha)
  }

  /** All backgrounds laid over `back` in order, with no opacity applied. */
  function Backgrounds(chain: seq<Element>, back: Rgb): Rgb {
    if chain == [] then back else Backgrounds(chain[1..], Over(chain[0].background, back))
  }

  /** Only the opacities, the ink and the stack of backgrounds decide how ink differs from its surface. */
  lemma VisibleDifference(chain: seq<Element>, ink: Rgba, back: Rgb, i: nat)
    requires chain != [] && i < 3
    ensures Paint(chain, ink, back).ink[i] - Paint(chain, ink, back).surface[i]
         == (ink.rgb[i] - Backgrounds(chain, back)[i]) * Visibility(chain, ink.alpha)
  {
    hide Paint, Over;
    var x := (ink.rgb[i] - Backgrounds(chain, back)[i]) * ink.alpha;
    FadedDifference(chain, ink, back, i, x);
    VisibilityScales(chain, ink.rgb[i], Backgrounds(chain, back)[i], ink.alpha, x);
  }

  lemma {:induction false} FadedDifference(chain: seq<Element>, ink: Rgba, back: Rgb, i: nat, x: real)
    requires chain != [] && i < 3 && x == (ink.rgb[i] - Backgrounds(chain, back)[i]) * ink.alpha
    ensures Paint(chain, ink, back).ink[i] - Paint(chain, ink, back).surface[i] == Visibility(chain, x)
    decreases |chain|
  {
    hide Over;
    var e, surface := chain[0], Over(chain[0].background, back);
    if |chain| > 1 {
      FadedDifference(chain[1..], ink, surface, i, x);
      FadePair(Paint(chain[1..], ink, surface), e.opacity, back, i);
    } else {
      assert chain[1..] == [];
      InkDifference(ink, surface, i);
      FadePair(Pair(Over(ink, surface), surface), e.opacity, back, i);
    }
  }

  lemma {:induction false} VisibilityScales(chain: seq<Element>, front: real, under: real, alpha: real, x: real)
    requires x == (front - under) * alpha
    ensures Visibility(chain, x) == (front - under) * Visibility(chain, alpha)
  {
    if chain != [] {
      VisibilityScales(chain[1..], front, under, alpha, x);
      var o, v, gap := chain[0].opacity, Visibility(chain[1..], alpha), front - under;
      assert o * (gap * v) == gap * (o * v);
    }
  }

  lemma InkDifference(ink: Rgba, surface: Rgb, i: nat)
    requires i < 3
    ensures Over(ink, surface)[i] - surface[i] == (ink.rgb[i] - surface[i]) * ink.alpha
  {
  }

  /** Blending both colours back onto the same backdrop scales their difference by the opacity. */
  lemma FadePair(pair: Pair, opacity: real, back: Rgb, i: nat)
    requires i < 3
    ensures Over(Rgba(pair.ink, opacity), back)[i] - Over(Rgba(pair.surface, opacity), back)[i]
         == opacity * (pair.ink[i] - pair.surface[i])
  {
  }

  /** With every opacity 1 the probe is a plain fold of `Over`. */
  lemma {:induction false} OpaqueChainIsFold(chain: seq<Element>, ink: Rgba, back: Rgb)
    requires chain != []
    requires forall i :: 0 <= i < |chain| ==> chain[i].opacity == 1.0
    ensures Paint(chain, ink, back) == Pair(Over(ink, Backgrounds(chain, back)), Backgrounds(chain, back))
    decreases |chain|
  {
    if |chain| > 1 {
      OpaqueChainIsFold(chain[1..], ink, Over(chain[0].background, back));
    } else {
      assert chain[1..] == [];
    }
  }

  /**
    A pseudo-element's opacity is multiplied into its ink. That is the same as painting the
    pseudo-element as one more group: no background of its own, and that opacity.
   */
  lemma {:induction false} PseudoOpacityIsAGroup(chain: seq<Element>, ink: Rgba, opacity: real, back: Rgb)
    requires chain != []
    ensures Paint(chain, Rgba(ink.rgb, ink.alpha * opacity), back)
         == Paint(chain + [Element(CLEAR, opacity)], ink, back)
    decreases |chain|
  {
    var pseudo := Element(CLEAR, opacity);
    var longer := chain + [pseudo];
    var surface := Over(chain[0].background, back);
    if |chain| > 1 {
      PseudoOpacityIsAGroup(chain[1..], ink, opacity, surface);
      assert longer[1..] == chain[1..] + [pseudo];
    } else {
      assert longer[1..] == [pseudo];
      assert Over(CLEAR, surface) == surface;
      PseudoLeaf(ink, opacity, surface);
    }
  }

  lemma PseudoLeaf(ink: Rgba, opacity: real, surface: Rgb)
    ensures Paint([Element(CLEAR, opacity)], ink, surface)
         == Pair(Over(Rgba(ink.rgb, ink.alpha * opacity), surface), surface)
  {
    assert Over(CLEAR, surface) == surface;
    var mixed := Over(ink, surface);
    forall i | 0 <= i < 3
      ensures Over(Rgba(mixed, opacity), surface)[i] == Over(Rgba(ink.rgb, ink.alpha * opacity), surface)[i]
      ensures Over(Rgba(surface, opacity), surface)[i] == surface[i]
    {
      MixTwice(ink.rgb[i], ink.alpha, opacity, surface[i], mixed[i], ink.alpha * opacity);
    }
  }

  lemma MixTwice(front: real, alpha: real, opacity: real, back: real, mixed: real, both: real)
    requires mixed == Mix(front, alpha, back) && both == alpha * opacity
    ensures Mix(mixed, opacity, back) == Mix(front, both, back)
    ensures Mix(back, opacity, back) == back
  {
    assert mixed * opacity == front * both + back * (opacity - both);
  }

  // ---- ranges, luminance and the ratio --------------------------------------------------------

  predicate Unit(x: real) { 0.0 <= x <= 1.0 }

  predicate InGamut(c: Rgb) {
    forall i :: 0 <= i < 3 ==> 0.0 <= c[i] <= 255.0
  }

  predicate ValidInk(c: Rgba) { InGamut(c.rgb) && Unit(c.alpha) }

  predicate ValidChain(chain: seq<Element>) {
    forall i :: 0 <= i < |chain| ==> ValidInk(chain[i].background) && Unit(chain[i].opacity)
  }

  lemma MixBetween(front: real, alpha: real, back: real)
    requires 0.0 <= front <= 255.0 && Unit(alpha) && 0.0 <= back <= 255.0
    ensures 0.0 <= Mix(front, alpha, back) <= 255.0
  {
    assert 0.0 <= front * alpha <= 255.0 * alpha;
    assert 0.0 <= back * (1.0 - alpha) <= 255.0 * (1.0 - alpha);
  }

  lemma OverInGamut(front: Rgba, back: Rgb)
    requires ValidInk(front) && InGamut(back)
    ensures InGamut(Over(front, back))
  {
    forall i | 0 <= i < 3 ensures 0.0 <= Over(front, back)[i] <= 255.0 {
      MixBetween(front.rgb[i], front.alpha, back[i]);
    }
  }

  lemma {:induction false} PaintInGamut(chain: seq<Element>, ink: Rgba, back: Rgb)
    requires chain != [] && ValidChain(chain) && ValidInk(ink) && InGamut(back)
    ensures InGamut(Paint(chain, ink, back).ink) && InGamut(Paint(chain, ink, back).surface)
    decreases |chain|
  {
    var surface := Over(chain[0].background, back);
    OverInGamut(chain[0].background, back);
    OverInGamut(ink, surface);
    var pair := Pair(Over(ink, surface), surface);
    if |chain| > 1 {
      PaintInGamut(chain[1..], ink, surface);
      pair := Paint(chain[1..], ink, surface);
    }
    OverInGamut(Rgba(pair.ink, chain[0].opacity), back);
    OverInGamut(Rgba(pair.surface, chain[0].opacity), back);
  }

  /** The transfer curve of one channel; `power` stands for raising to the power 2.4. */
  function Linear(channel: real, power: real -> real): real {
    var v := channel / 255.0;
    if v <= 0.04045 then v / 12.92 else power((v + 0.055) / 1.055)
  }

  function Luminance(c: Rgb, power: real -> real): real {
    0.2126 * Linear(c[0], power) + 0.7152 * Linear(c[1], power) + 0.0722 * Linear(c[2], power)
  }

  function Max(a: real, b: real): real { if a < b then b else a }

  function Min(a: real, b: real): real { if a < b then a else b }

  function Ratio(a: real, b: real): real
    requires Unit(a) && Unit(b)
  {
    (Max(a, b) + 0.05) / (Min(a, b) + 0.05)
  }

  /** The ratio lies in [1, 21] and does not depend on the order; both ends are reached in one way only. */
  lemma RatioBounds(a: real, b: real)
    requires Unit(a) && Unit(b)
    ensures 1.0 <= Ratio(a, b) <= 21.0 && Ratio(a, b) == Ratio(b, a)
    ensures Ratio(a, b) == 1.0 <==> a == b
    ensures Ratio(a, b) == 21.0 <==> Max(a, b) == 1.0 && Min(a, b) == 0.0
  {
    QuotientBounds(Max(a, b) + 0.05, Min(a, b) + 0.05);
  }

  /** The contrast of two luminances, without dividing: the lighter over the darker, each with a little light added. */
  predicate Contrasts(ratio: real, a: real, b: real) {
    if a <= b then ratio * (a + 0.05) == b + 0.05 else ratio * (b + 0.05) == a + 0.05
  }

  lemma RatioIsContrast(a: real, b: real)
    requires Unit(a) && Unit(b)
    ensures Contrasts(Ratio(a, b), a, b)
  {
  }

  lemma QuotientBounds(hi: real, lo: real)
    requires 0.05 <= lo <= hi <= 1.05
    ensures 1.0 <= hi / lo <= 21.0
    ensures hi / lo == 1.0 <==> hi == lo
    ensures hi / lo == 21.0 <==> hi == 1.05 && lo == 0.05
  {
    var q := hi / lo;
    assert q * lo == hi;
    Cancel(q, 21.0, lo);
    Cancel(q, 1.0, lo);
  }

  lemma Cancel(q: real, bound: real, lo: real)
    requires lo > 0.0
    ensures q * lo < bound * lo <==> q < bound
    ensures q * lo == bound * lo <==> q == bound
  {
    var d := q - bound;
    assert d * lo == q * lo - bound * lo;
    assert d > 0.0 ==> d * lo > 0.0;
    assert d < 0.0 ==> d * lo < 0.0;
  }

  /** All that the bounds need of the power: it maps the unit interval into itself. */
  ghost predicate UnitCurve(power: real -> real) {
    forall x: real :: Unit(x) ==> Unit(power(x))
  }

  lemma LinearUnit(channel: real, power: real -> real)
    requires 0.0 <= channel <= 255.0 && UnitCurve(power)
    ensures Unit(Linear(channel, power))
  {
    var v := channel / 255.0;
    if v > 0.04045 {
      assert Unit((v + 0.055) / 1.055);
    }
  }

  lemma LuminanceUnit(c: Rgb, power: real -> real)
    requires InGamut(c) && UnitCurve(power)
    ensures Unit(Luminance(c, power))
  {
    LinearUnit(c[0], power);
    LinearUnit(c[1], power);
    LinearUnit(c[2], power);
  }

  /** The channels contribute independently of each other. */
  lemma ChannelsAddUp(c: Rgb, power: real -> real)
    ensures Luminance(c, power)
         == Luminance([c[0], 0.0, 0.0], power) + Luminance([0.0, c[1], 0.0], power) + Luminance([0.0, 0.0, c[2]], power)
  {
    assert Linear(0.0, power) == 0.0;
  }

  /** How bright each channel is by itself, up to full intensity: green most, blue least, and all three together white. */
  lemma PureChannels(x: real, power: real -> real)
    requires power(1.0) == 1.0
    ensures Luminance([x, 0.0, 0.0], power) == Luminance([255.0, 0.0, 0.0], power) * Linear(x, power)
    ensures Luminance([0.0, x, 0.0], power) == Luminance([0.0, 255.0, 0.0], power) * Linear(x, power)
    ensures Luminance([0.0, 0.0, x], power) == Luminance([0.0, 0.0, 255.0], power) * Linear(x, power)
    ensures Luminance([255.0, 0.0, 0.0], power) == 0.2126 && Luminance([0.0, 255.0, 0.0], power) == 0.7152
    ensures Luminance([0.0, 0.0, 255.0], power) == 0.0722
    ensures Luminance(WHITE, power) == 1.0 && Luminance([0.0, 0.0, 0.0], power) == 0.0
  {
    assert Linear(0.0, power) == 0.0;
    assert 255.0 / 255.0 == 1.0 && (1.0 + 0.055) / 1.055 == 1.0;
    assert Linear(255.0, power) == 1.0;
  }

  /** A straight line for dark channels and the power curve above, changing over at 0.04045 of full intensity. */
  lemma CurveOfChannel(channel: real, power: real -> real)
    ensures channel <= 0.04045 * 255.0 ==> Linear(channel, power) * (12.92 * 255.0) == channel
    ensures channel > 0.04045 * 255.0 ==>
              exists x: real :: x * (1.055 * 255.0) == channel + 0.055 * 255.0 && Linear(channel, power) == power(x)
  {
    if channel > 0.04045 * 255.0 {
      var x := (channel / 255.0 + 0.055) / 1.055;
      assert x * 1.055 == channel / 255.0 + 0.055;
      assert Linear(channel, power) == power(x);
    }
  }

  /** A brighter channel never makes a colour darker, if the power grows and its piece starts no lower than the line ends. */
  lemma BrighterIsLighter(channel: real, brighter: real, power: real -> real)
    requires 0.0 <= channel <= brighter <= 255.0
    requires forall x: real, y: real :: x <= y ==> power(x) <= power(y)
    requires power((0.04045 + 0.055) / 1.055) >= 0.04045 / 12.92
    ensures Linear(channel, power) <= Linear(brighter, power)
  {
    var v, w := channel / 255.0, brighter / 255.0;
    assert v <= w;
    if v <= 0.04045 < w {
      assert (0.04045 + 0.055) / 1.055 <= (w + 0.055) / 1.055;
      assert v / 12.92 <= 0.04045 / 12.92;
    }
  }

  // ---- the probe as a whole -------------------------------------------------------------------

  datatype Reading = Reading(ratio: real, ink: Rgb, surface: Rgb)

  /** An element with its chain of parents, as the document holds it. */
  datatype Node = Node(style: Element, parent: Option<Node>)

  function ChainOf(node: Option<Node>): seq<Element> {
    match node
    case None => []
    case Some(n) => ChainOf(n.parent) + [n.style]
  }

  /** Walking from the element to the root, each style is put in front of the chain. */
  method BuildChain(el: Node) returns (chain: seq<Element>)
    ensures chain == ChainOf(Some(el)) && chain != []
  {
    chain := [];
    var n := Some(el);
    while n.Some?
      invariant ChainOf(Some(el)) == ChainOf(n) + chain
      invariant n.None? ==> chain != []
      decreases n
    {
      chain := [n.value.style] + chain;
      n := n.value.parent;
    }
  }

  /** The elements that decide a reading; a pseudo-element is one more group inside its element. */
  function Painted(el: Node, pseudo: Option<real>, adjacent: bool): seq<Element> {
    ChainOf(if adjacent then el.parent else Some(el))
    + (if pseudo.Some? then [Element(CLEAR, pseudo.value)] else [])
  }

  /** What a reading must mean for the elements painted. */
  ghost predicate Means(reading: Reading, painted: seq<Element>, ink: Rgba, power: real -> real) {
    && painted != []
    && reading.ink == Flatten(Group(painted, ink), WHITE)
    && reading.surface == Flatten(Group(painted, CLEAR), WHITE)
    && InGamut(reading.ink) && InGamut(reading.surface)
    && Contrasts(reading.ratio, Luminance(reading.ink, power), Luminance(reading.surface, power))
    && 1.0 <= reading.ratio <= 21.0
    && (reading.ratio == 1.0 <==> Luminance(reading.ink, power) == Luminance(reading.surface, power))
    && (Visibility(painted, ink.alpha) == 0.0 ==> reading.ratio == 1.0)
  }

  /** The colours of a chain with their contrast ratio. */
  function Read(chain: seq<Element>, ink: Rgba, power: real -> real): Reading
    requires chain != []
    requires Unit(Luminance(Paint(chain, ink, WHITE).ink, power))
    requires Unit(Luminance(Paint(chain, ink, WHITE).surface, power))
  {
    var p := Paint(chain, ink, WHITE);
    Reading(Ratio(Luminance(p.ink, power), Luminance(p.surface, power)), p.ink, p.surface)
  }

  lemma ReadMeans(chain: seq<Element>, ink: Rgba, power: real -> real)
    requires chain != [] && ValidChain(chain) && ValidInk(ink) && UnitCurve(power)
    ensures Unit(Luminance(Paint(chain, ink, WHITE).ink, power))
    ensures Unit(Luminance(Paint(chain, ink, WHITE).surface, power))
    ensures Means(Read(chain, ink, power), chain, ink, power)
  {
    PaintInGamut(chain, ink, WHITE);
    PaintIsIsolatedGroups(chain, ink, WHITE);
    Invisible(chain, ink, WHITE);
    var p := Paint(chain, ink, WHITE);
    LuminanceUnit(p.ink, power);
    LuminanceUnit(p.surface, power);
    hide Luminance, Ratio, Contrasts, Paint;
    RatioBounds(Luminance(p.ink, power), Luminance(p.surface, power));
    RatioIsContrast(Luminance(p.ink, power), Luminance(p.surface, power));
  }

  /** Zero visibility leaves nothing to see. */
  lemma Invisible(chain: seq<Element>, ink: Rgba, back: Rgb)
    requires chain != []
    ensures Visibility(chain, ink.alpha) == 0.0 ==> Paint(chain, ink, back).ink == Paint(chain, ink, back).surface
  {
    if Visibility(chain, ink.alpha) == 0.0 {
      forall i | 0 <= i < 3 ensures Paint(chain, ink, back).ink[i] == Paint(chain, ink, back).surface[i] {
        VisibleDifference(chain, ink, back, i);
      }
    }
  }

  /** Visibility is lost exactly when the ink is clear or some element is fully transparent. */
  lemma {:induction false} InvisibleExactly(chain: seq<Element>, alpha: real)
    ensures Visibility(chain, alpha) == 0.0 <==>
            alpha == 0.0 || exists i :: 0 <= i < |chain| && chain[i].opacity == 0.0
  {
    if chain != [] {
      InvisibleExactly(chain[1..], alpha);
      if i :| 0 < i < |chain| && chain[i].opacity == 0.0 {
        assert chain[1..][i - 1].opacity == 0.0;
      }
      if j :| 0 <= j < |chain[1..]| && chain[1..][j].opacity == 0.0 {
        assert chain[j + 1].opacity == 0.0;
      }
    }
  }

  /**
    The reading for an element. `pseudo` is the opacity of a measured pseudo-element; `adjacent`
    measures on the parent's surface, so a root element has nothing to be measured on.
   */
  method Measure(el: Node, ink: Rgba, pseudo: Option<real>, adjacent: bool, power: real -> real)
    returns (reading: Option<Reading>)
    requires ValidChain(ChainOf(Some(el))) && ValidInk(ink) && UnitCurve(power)
    requires pseudo.Some? ==> Unit(pseudo.value)
    ensures reading.None? <==> adjacent && el.parent.None?
    ensures reading.Some? ==> Means(reading.value, Painted(el, pseudo, adjacent), ink, power)
  {
    var chain := BuildChain(el);
    ParentChain(el);
    if adjacent {
      chain := chain[..|chain| - 1];
      if chain == [] {
        return None;
      }
    }
    assert chain == ChainOf(if adjacent then el.parent else Some(el));
    match pseudo
    case None =>
      assert Painted(el, pseudo, adjacent) == chain;
      ReadMeans(chain, ink, power);
      reading := Some(Read(chain, ink, power));
    case Some(opacity) =>
      PseudoMeans(chain, ink, opacity, power);
      reading := Some(Read(chain, Rgba(ink.rgb, ink.alpha * opacity), power));
  }

  lemma ParentChain(el: Node)
    ensures ChainOf(Some(el)) == ChainOf(el.parent) + [el.style]
    ensures ChainOf(el.parent) == [] <==> el.parent.None?
  {
  }

  lemma PseudoMeans(chain: seq<Element>, ink: Rgba, opacity: real, power: real -> real)
    requires chain != [] && ValidChain(chain) && ValidInk(ink) && UnitCurve(power) && Unit(opacity)
    ensures var faded := Rgba(ink.rgb, ink.alpha * opacity);
            && Unit(Luminance(Paint(chain, faded, WHITE).ink, power))
            && Unit(Luminance(Paint(chain, faded, WHITE).surface, power))
            && Means(Read(chain, faded, power), chain + [Element(CLEAR, opacity)], ink, power)
  {
    PseudoOpacityIsAGroup(chain, ink, opacity, WHITE);
    ReadMeans(chain + [Element(CLEAR, opacity)], ink, power);
  }
}
