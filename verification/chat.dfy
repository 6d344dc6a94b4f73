/** The plugin's own text tree, independent of any rendering target. */
module Chat {
  import opened Wrappers
  import Adventure

  /** A colour of a chat modifier; only its RGB value is used here. */
  datatype TabTextColor = TabTextColor(rgb: int)

  /** Style of a structured node. `magicCodeBitMask` packs bold (1), italic (2),
      obfuscated (4), strikethrough (8) and underlined (16). */
  datatype ChatModifier = ChatModifier(
    color: Option<TabTextColor>,
    magicCodeBitMask: int,
    font: Option<string>)

  /** A structured node: text, style and children ("extra") in order. */
  datatype StructuredComponent = StructuredComponent(
    text: string,
    modifier: ChatModifier,
    extra: seq<StructuredComponent>)

  /** The three kinds of component the converter distinguishes. */
  datatype TabComponent =
    | AdventureComponent(component: Adventure.Component)
    | SimpleComponent(text: string)
    | Structured(node: StructuredComponent)
}
