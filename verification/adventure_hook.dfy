/** Conversion of the plugin's component tree into Adventure components, with
    the 32-entry table from magic-code masks to decoration sets. */
module AdventureHook {
  import opened Wrappers
  import opened Bits
  import opened Adventure
  import opened Chat

  const AllDecorations: set<TextDecoration> := {Bold, Italic, Obfuscated, Strikethrough, Underlined}

  /** The bit of a magic-code mask that switches a decoration on. */
  function MagicCodeBit(d: TextDecoration): (bit: nat)
    ensures bit > 0
  {
    match d
    case Bold => 1
    case Italic => 2
    case Obfuscated => 4
    case Strikethrough => 8
    case Underlined => 16
  }

  /** The decorations a mask switches on: exactly those whose bit is set. */
  function DecorationsOf(mask: int): set<TextDecoration> {
    set d | d in AllDecorations && HasFlag(mask, MagicCodeBit(d))
  }

  /** Packs a decoration set back into a mask, one bit per decoration. */
  function MaskOf(s: set<TextDecoration>): int {
    (if Bold in s then 1 else 0)
    + (if Italic in s then 2 else 0)
    + (if Obfuscated in s then 4 else 0)
    + (if Strikethrough in s then 8 else 0)
    + (if Underlined in s then 16 else 0)
  }

  /** Builds the decoration table entry by entry, testing each of the five
      bits of the index independently. */
  method LoadDecorations() returns (decorations: seq<set<TextDecoration>>)
    ensures |decorations| == 32
    ensures forall i :: 0 <= i < 32 ==> decorations[i] == DecorationsOf(i)
  {
    decorations := [];
    var i := 0;
    while i < 32
      invariant 0 <= i <= 32
      invariant |decorations| == i
      invariant forall j :: 0 <= j < i ==> decorations[j] == DecorationsOf(j)
    {
      var entry: set<TextDecoration> := {};
      if HasFlag(i, 1) { entry := entry + {Bold}; }
      if HasFlag(i, 2) { entry := entry + {Italic}; }
      if HasFlag(i, 4) { entry := entry + {Obfuscated}; }
      if HasFlag(i, 8) { entry := entry + {Strikethrough}; }
      if HasFlag(i, 16) { entry := entry + {Underlined}; }
      decorations := decorations + [entry];
      i := i + 1;
    }
  }

  /** Every table entry packs back to its own index. */
  lemma DecorationsRoundTrip(mask: int)
    requires 0 <= mask < 32
    ensures MaskOf(DecorationsOf(mask)) == mask
  {
  }

  /** Every combination of the five decorations is some entry of the table. */
  lemma DecorationsComplete(s: set<TextDecoration>)
    ensures 0 <= MaskOf(s) < 32
    ensures DecorationsOf(MaskOf(s)) == s
  {
  }

  /** Distinct masks select distinct decoration sets, and mask 0 selects none. */
  lemma DecorationsInjective(a: int, b: int)
    requires 0 <= a < 32 && 0 <= b < 32
    ensures DecorationsOf(a) == DecorationsOf(b) ==> a == b
    ensures DecorationsOf(0) == {}
    ensures DecorationsOf(31) == AllDecorations
  {
    DecorationsRoundTrip(a);
    DecorationsRoundTrip(b);
    DecorationsRoundTrip(0);
  }

  /** Every mask in the tree indexes the 32-entry table; the Java code reads
      `decorations[mask]` without a bounds check. */
  predicate ValidMasks(s: StructuredComponent) {
    && 0 <= s.modifier.magicCodeBitMask < 32
    && forall i :: 0 <= i < |s.extra| ==> ValidMasks(s.extra[i])
  }

  predicate Convertible(c: TabComponent) {
    c.Structured? ==> ValidMasks(c.node)
  }

  /** Converts any component: a wrapped Adventure component is returned as
      is, a plain literal becomes an unstyled text component, and a structured
      node is converted recursively. */
  function ToAdventureComponent(c: TabComponent): (r: Component)
    requires Convertible(c)
    ensures c.AdventureComponent? ==> r == c.component
    ensures c.SimpleComponent? ==> r == TextComponent(c.text, None, {}, None, [])
    ensures c.Structured? ==> MaskOf(r.decorations) == c.node.modifier.magicCodeBitMask
    ensures c.Structured? ==> r.content == c.node.text && |r.children| == |c.node.extra|
  {
    match c
    case AdventureComponent(component) => component
    case SimpleComponent(text) => Text(text)
    case Structured(node) => ConvertStructured(node)
  }

  /** A structured node: same text, colour iff the modifier has one (its RGB
      truncated to 24 bits), the table's decorations for the mask, font iff
      the modifier has one (parsed as a key), and the converted extras as
      children in the same order. */
  function ConvertStructured(s: StructuredComponent): (r: Component)
    requires ValidMasks(s)
    ensures r.content == s.text
    ensures r.color.Some? <==> s.modifier.color.Some?
    ensures s.modifier.color.Some? && 0 <= s.modifier.color.value.rgb < ColorRange ==>
      r.color.value.value == s.modifier.color.value.rgb
    ensures MaskOf(r.decorations) == s.modifier.magicCodeBitMask
    ensures r.font.Some? <==> s.modifier.font.Some?
    ensures s.modifier.font.Some? ==> r.font.value.WellFormed()
    ensures |r.children| == |s.extra|
    ensures forall i :: 0 <= i < |s.extra| ==> r.children[i] == ConvertStructured(s.extra[i])
    decreases s
  {
    var modifier := s.modifier;
    var color := if modifier.color.None? then None else Some(ColorOf(modifier.color.value.rgb));
    DecorationsRoundTrip(modifier.magicCodeBitMask);
    var component := TextComponent(s.text, color, DecorationsOf(modifier.magicCodeBitMask), None, []);
    var withFont := if modifier.font.Some? then component.(font := Some(KeyOf(modifier.font.value))) else component;
    if |s.extra| == 0 then withFont else withFont.(children := ConvertExtras(s.extra))
  }

  /** The extras converted one by one, in order. */
  function ConvertExtras(xs: seq<StructuredComponent>): (r: seq<Component>)
    requires forall i :: 0 <= i < |xs| ==> ValidMasks(xs[i])
    ensures |r| == |xs|
    ensures forall i :: 0 <= i < |xs| ==> r[i] == ConvertStructured(xs[i])
    decreases xs
  {
    if |xs| == 0 then [] else [ConvertStructured(xs[0])] + ConvertExtras(xs[1..])
  }

  /** The form of a structured node that the conversion keeps: every colour
      reduced to its low 24 bits and every font written as the key it parses
      to, "namespace:value". Text, masks and the shape of the tree are kept. */
  function Canonical(s: StructuredComponent): (r: StructuredComponent)
    ensures r.text == s.text
    ensures r.modifier.magicCodeBitMask == s.modifier.magicCodeBitMask
    ensures r.modifier.color.Some? <==> s.modifier.color.Some?
    ensures r.modifier.font.Some? <==> s.modifier.font.Some?
    ensures |r.extra| == |s.extra|
    ensures forall i :: 0 <= i < |s.extra| ==> r.extra[i] == Canonical(s.extra[i])
    decreases s
  {
    var modifier := s.modifier;
    StructuredComponent(
      s.text,
      ChatModifier(
        if modifier.color.None? then None else Some(TabTextColor(modifier.color.value.rgb % ColorRange)),
        modifier.magicCodeBitMask,
        if modifier.font.None? then None else Some(KeyOf(modifier.font.value).AsString())),
      CanonicalAll(s.extra))
  }

  function CanonicalAll(xs: seq<StructuredComponent>): (r: seq<StructuredComponent>)
    ensures |r| == |xs|
    ensures forall i :: 0 <= i < |xs| ==> r[i] == Canonical(xs[i])
    decreases xs
  {
    if |xs| == 0 then [] else [Canonical(xs[0])] + CanonicalAll(xs[1..])
  }

  /** Reads a converted component back as a structured node: the inverse the
      conversion is checked against. */
  function FromAdventure(c: Component): StructuredComponent {
    StructuredComponent(
      c.content,
      ChatModifier(
        if c.color.None? then None else Some(TabTextColor(c.color.value.value)),
        MaskOf(c.decorations),
        if c.font.None? then None else Some(c.font.value.AsString())),
      FromAdventureAll(c.children))
  }

  function FromAdventureAll(cs: seq<Component>): (r: seq<StructuredComponent>)
    ensures |r| == |cs|
    ensures forall i :: 0 <= i < |cs| ==> r[i] == FromAdventure(cs[i])
  {
    if |cs| == 0 then [] else [FromAdventure(cs[0])] + FromAdventureAll(cs[1..])
  }

  /** Conversion loses nothing beyond the library's own normalisation: the
      text, mask, every child in order, the colour up to its low 24 bits and
      the font up to key parsing can be read back from its result. */
  lemma {:induction false} ConvertRoundTrip(s: StructuredComponent)
    requires ValidMasks(s)
    ensures FromAdventure(ConvertStructured(s)) == Canonical(s)
    decreases s
  {
    var r := ConvertStructured(s);
    ConvertExtrasRoundTrip(s.extra);
    assert FromAdventureAll(r.children) == CanonicalAll(s.extra) by {
      if |s.extra| == 0 {
      } else {
        assert r.children == ConvertExtras(s.extra);
      }
    }
  }

  lemma {:induction false} ConvertExtrasRoundTrip(xs: seq<StructuredComponent>)
    requires forall i :: 0 <= i < |xs| ==> ValidMasks(xs[i])
    ensures FromAdventureAll(ConvertExtras(xs)) == CanonicalAll(xs)
    decreases xs
  {
    if |xs| > 0 {
      ConvertRoundTrip(xs[0]);
      ConvertExtrasRoundTrip(xs[1..]);
      assert ConvertExtras(xs) == [ConvertStructured(xs[0])] + ConvertExtras(xs[1..]);
      assert FromAdventureAll(ConvertExtras(xs)) == [FromAdventure(ConvertStructured(xs[0]))] + FromAdventureAll(ConvertExtras(xs[1..]));
    }
  }

  /** Nodes with the same canonical form convert to the same component. */
  lemma {:induction false} ConvertRespectsCanonical(s: StructuredComponent, t: StructuredComponent)
    requires ValidMasks(s) && ValidMasks(t)
    requires Canonical(s) == Canonical(t)
    ensures ConvertStructured(s) == ConvertStructured(t)
    decreases s
  {
    if s.modifier.color.Some? {
      ColorOfEquality(s.modifier.color.value.rgb, t.modifier.color.value.rgb);
    }
    if s.modifier.font.Some? {
      KeyOfEquality(s.modifier.font.value, t.modifier.font.value);
    }
    ConvertExtrasRespectCanonical(s.extra, t.extra);
  }

  lemma {:induction false} ConvertExtrasRespectCanonical(xs: seq<StructuredComponent>, ys: seq<StructuredComponent>)
    requires forall i :: 0 <= i < |xs| ==> ValidMasks(xs[i])
    requires forall i :: 0 <= i < |ys| ==> ValidMasks(ys[i])
    requires CanonicalAll(xs) == CanonicalAll(ys)
    ensures ConvertExtras(xs) == ConvertExtras(ys)
    decreases xs
  {
    if |xs| > 0 {
      assert Canonical(xs[0]) == CanonicalAll(xs)[0] == Canonical(ys[0]);
      ConvertRespectsCanonical(xs[0], ys[0]);
      assert CanonicalAll(xs[1..]) == CanonicalAll(xs)[1..];
      assert CanonicalAll(ys[1..]) == CanonicalAll(ys)[1..];
      ConvertExtrasRespectCanonical(xs[1..], ys[1..]);
    }
  }

  /** Two structured nodes convert to the same component exactly when their
      canonical forms are equal: the conversion is injective up to colour
      truncation and key parsing, and no further. */
  lemma {:induction false} ConvertInjective(s: StructuredComponent, t: StructuredComponent)
    requires ValidMasks(s) && ValidMasks(t)
    ensures ConvertStructured(s) == ConvertStructured(t) <==> Canonical(s) == Canonical(t)
  {
    ConvertRoundTrip(s);
    ConvertRoundTrip(t);
    if Canonical(s) == Canonical(t) {
      ConvertRespectsCanonical(s, t);
    }
  }

  /** The conversion is not injective on raw nodes: a font without a
      namespace and the same font prefixed with "minecraft:" convert alike. */
  lemma ConvertMergesDefaultNamespace(s: StructuredComponent, v: string)
    requires ValidMasks(s)
    requires ':' !in v
    ensures ConvertStructured(s.(modifier := s.modifier.(font := Some(v))))
         == ConvertStructured(s.(modifier := s.modifier.(font := Some(MinecraftNamespace + ":" + v))))
  {
    DefaultNamespace(v);
  }
}
