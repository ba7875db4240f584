/** The script family and style a number is rendered in. */
module ChineseCase {

  /** Upper is the formal, fraud-resistant glyph set; Lower the everyday one. */
  datatype ScriptStyle = Upper | Lower(circleAsZero: bool)

  datatype NumberScript =
    | SimplifiedChinese(style: ScriptStyle)
    | TraditionalChinese(style: ScriptStyle)
    | Japanese(style: ScriptStyle)
    | Korean(style: ScriptStyle)
}
