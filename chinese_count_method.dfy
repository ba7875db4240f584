/**
 * The four counting methods for large units: 下數 (Low, every order gets a
 * new unit), 萬進 (TenThousand), 中數 (Middle) and 上數 (High).
 */
module ChineseCountMethods {

  datatype ChineseCountMethod = Low | TenThousand | Middle | High
}
