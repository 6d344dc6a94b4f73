/** The few values of the Adventure text library that the conversion
    produces. Only what the conversion sets is modelled: a text component with
    content, optional colour, the decorations switched on, an optional font
    key and ordered children. The two library factories the conversion calls,
    `Key.key(String)` and `TextColor.color(int)`, are modelled with their
    normalisation, because both can map different inputs to the same value. */
module Adventure {
  import opened Wrappers

  /** Adventure's TextDecoration constants. */
  datatype TextDecoration = Obfuscated | Bold | Strikethrough | Underlined | Italic

  /** The namespace a key string without one is placed in. */
  const MinecraftNamespace: string := "minecraft"

  /** A resource key: namespace and value. */
  datatype Key = Key(namespace: string, value: string) {
    /** `Key.asString()`: namespace and value joined by a colon. */
    function AsString(): string {
      namespace + ":" + value
    }

    /** A key `Key.key(String)` can produce: a non-empty namespace without a colon. */
    predicate WellFormed() {
      namespace != [] && ':' !in namespace
    }
  }

  /** `String.indexOf(':')`: the position of the first colon, or -1 when
      there is none. */
  function ColonIndex(s: string): (r: int)
    ensures -1 <= r < |s|
    ensures r >= 0 ==> s[r] == ':' && forall j :: 0 <= j < r ==> s[j] != ':'
    ensures r == -1 ==> forall j :: 0 <= j < |s| ==> s[j] != ':'
  {
    if |s| == 0 then -1
    else if s[0] == ':' then 0
    else
      var r := ColonIndex(s[1..]);
      if r == -1 then -1 else r + 1
  }

  /** `Key.key(String)`: the text before the first colon is the namespace,
      unless that text is empty or there is no colon, in which case the
      namespace is "minecraft"; the value is everything after the first colon,
      or the whole string when there is none. */
  function KeyOf(s: string): (k: Key)
    ensures k.WellFormed()
    ensures ':' !in s ==> k == Key(MinecraftNamespace, s)
    ensures k.namespace != MinecraftNamespace ==> s == k.AsString()
  {
    var i := ColonIndex(s);
    assert ':' !in MinecraftNamespace;
    Key(if i >= 1 then s[..i] else MinecraftNamespace, if i >= 0 then s[i + 1..] else s)
  }

  /** Parsing a key's own string form gives the key back. */
  lemma KeyRoundTrip(k: Key)
    requires k.WellFormed()
    ensures KeyOf(k.AsString()) == k
  {
    var s := k.AsString();
    var n := |k.namespace|;
    assert s[n] == ':';
    assert forall j :: 0 <= j < n ==> s[j] == k.namespace[j];
    assert s[..n] == k.namespace;
    assert s[n + 1..] == k.value;
  }

  /** Two strings name the same key exactly when their parsed forms print the
      same; in particular `KeyOf` is not injective on raw strings. */
  lemma KeyOfEquality(a: string, b: string)
    ensures KeyOf(a) == KeyOf(b) <==> KeyOf(a).AsString() == KeyOf(b).AsString()
  {
    KeyRoundTrip(KeyOf(a));
    KeyRoundTrip(KeyOf(b));
  }

  /** A key string without a namespace and the same string prefixed with
      "minecraft:" give the same key. */
  lemma DefaultNamespace(v: string)
    requires ':' !in v
    ensures KeyOf(v) == KeyOf(MinecraftNamespace + ":" + v)
  {
    assert ':' !in MinecraftNamespace;
    KeyRoundTrip(Key(MinecraftNamespace, v));
  }

  /** A colour: a 24-bit RGB value. */
  datatype TextColor = TextColor(value: int)

  const ColorRange: int := 0x100_0000

  /** `TextColor.color(rgb)`: keeps the low 24 bits, `rgb & 0xffffff` on a
      two's-complement int, which is the non-negative remainder modulo 2^24. */
  function ColorOf(rgb: int): (c: TextColor)
    ensures 0 <= c.value < ColorRange
    ensures 0 <= rgb < ColorRange ==> c.value == rgb
  {
    TextColor(rgb % ColorRange)
  }

  /** Two RGB ints give the same colour exactly when they differ by a
      multiple of 2^24: the high byte is dropped. */
  lemma ColorOfEquality(a: int, b: int)
    ensures ColorOf(a) == ColorOf(b) <==> (a - b) % ColorRange == 0
  {
    var qa, qb := a / ColorRange, b / ColorRange;
    assert a == qa * ColorRange + a % ColorRange;
    assert b == qb * ColorRange + b % ColorRange;
    assert a - b == (qa - qb) * ColorRange + (a % ColorRange - b % ColorRange);
    if (a - b) % ColorRange == 0 {
      var k := (a - b) / ColorRange;
      assert a - b == k * ColorRange;
      assert (qa - qb - k) * ColorRange == b % ColorRange - a % ColorRange;
      assert -ColorRange < b % ColorRange - a % ColorRange < ColorRange;
      assert qa - qb - k == 0;
    }
  }

  datatype Component = TextComponent(
    content: string,
    color: Option<TextColor>,
    decorations: set<TextDecoration>,
    font: Option<Key>,
    children: seq<Component>)

  /** `Component.text(content)`: no colour, no decorations, no font, no children. */
  function Text(content: string): Component {
    TextComponent(content, None, {}, None, [])
  }
}
