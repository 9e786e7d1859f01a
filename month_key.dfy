/**
 * Month keys. Every dashboard turns a slider label such as `"Mar 2019"` into the
 * key `"2019-03"` with the same twelve-entry table (`convertToMonthYear`,
 * `formatMonthYear`, `toMonthKey`), and keeps a data row when
 * `start <= row.MonthYear <= end` as strings.
 */
module MonthKey {
  import opened Text

  const MonthNames: seq<string> :=
    ["Jan", "Feb", "Mar", "Apr", "May", "Jun", "Jul", "Aug", "Sep", "Oct", "Nov", "Dec"]

  const MonthCodes: seq<string> :=
    ["01", "02", "03", "04", "05", "06", "07", "08", "09", "10", "11", "12"]

  /** Index of `name` in the month table, if it is there. */
  function MonthIndex(name: string): (r: int)
    ensures -1 <= r < 12
    ensures r >= 0 ==> MonthNames[r] == name
    ensures r == -1 ==> name !in MonthNames
  {
    if name == "Jan" then 0 else if name == "Feb" then 1 else if name == "Mar" then 2
    else if name == "Apr" then 3 else if name == "May" then 4 else if name == "Jun" then 5
    else if name == "Jul" then 6 else if name == "Aug" then 7 else if name == "Sep" then 8
    else if name == "Oct" then 9 else if name == "Nov" then 10 else if name == "Dec" then 11
    else -1
  }

  /**
   * The properties every object literal inherits from `Object.prototype`. Looking one
   * of these up in the month table finds the inherited member, not `undefined`.
   */
  const InheritedNames: seq<string> :=
    ["constructor", "hasOwnProperty", "isPrototypeOf", "propertyIsEnumerable", "toLocaleString",
     "toString", "valueOf", "__proto__", "__defineGetter__", "__defineSetter__",
     "__lookupGetter__", "__lookupSetter__"]

  /**
   * `months[month]` rendered by a template literal: the two-digit code, or the text
   * `"undefined"` for a name that is neither in the table nor inherited.
   */
  function MonthCodeText(name: string): string
  {
    var i := MonthIndex(name);
    if i >= 0 then MonthCodes[i] else "undefined"
  }

  /**
   * `convertToMonthYear(monthLabel)`: `const [month, year] = monthLabel.split(" ")`, then
   * `` `${year}-${months[month]}` ``. A label without a space has no year, which the
   * template renders as `"undefined"`.
   */
  function ConvertToMonthYear(monthLabel: string): string
  {
    var parts := Split(monthLabel, ' ');
    var year := if |parts| >= 2 then parts[1] else "undefined";
    year + "-" + MonthCodeText(parts[0])
  }

  /** The key of month `i` (0 = January) of a year written `year`. */
  function Key(year: string, i: int): string
    requires 0 <= i < 12
  {
    year + "-" + MonthCodes[i]
  }

  /** A four-digit year. */
  predicate IsYear(y: string) { |y| == 4 && IsDigits(y) }

  /** Months counted from January of year 0: the chronological position of a key. */
  function Ordinal(year: string, i: int): int
    requires IsYear(year) && 0 <= i < 12
  {
    DigitsValue(year) * 12 + i
  }

  /** The inclusive range test every chart applies to `MonthYear`. */
  predicate InRange(k: string, start: string, end: string)
  {
    LexLe(start, k) && LexLe(k, end)
  }

  lemma MonthCodesAreTwoDigits(i: int)
    requires 0 <= i < 12
    ensures |MonthCodes[i]| == 2 && IsDigits(MonthCodes[i]) && DigitsValue(MonthCodes[i]) == i + 1
  {
  }

  /**
   * A well-formed label `"Mon YYYY"` converts to `YYYY-NN`, where NN is the
   * two-digit number (01 to 12) of the month.
   */
  lemma ConvertLabel(i: int, year: string)
    requires 0 <= i < 12
    requires ' ' !in year
    ensures ConvertToMonthYear(MonthNames[i] + " " + year) == Key(year, i)
    ensures |MonthCodes[i]| == 2 && IsDigits(MonthCodes[i]) && DigitsValue(MonthCodes[i]) == i + 1
  {
    var name := MonthNames[i];
    MonthNameInTable(i);
    assert Join([name, year], ' ') == name + " " + year;
    SplitJoin([name, year], ' ');
    assert MonthCodeText(name) == MonthCodes[i];
    MonthCodesAreTwoDigits(i);
  }

  /** Each month name is found at its own position and holds no space. */
  lemma MonthNameInTable(i: int)
    requires 0 <= i < 12
    ensures ' ' !in MonthNames[i]
    ensures MonthIndex(MonthNames[i]) == i
  {
    if i < 6 {
      if i == 0 {} else if i == 1 {} else if i == 2 {} else if i == 3 {} else if i == 4 {} else {}
    } else {
      if i == 6 {} else if i == 7 {} else if i == 8 {} else if i == 9 {} else if i == 10 {} else {}
    }
  }

  /**
   * A label whose month is not in the table, and is not a name every object inherits,
   * gets the text `undefined` in place of its number.
   */
  lemma ConvertUnknownMonth(name: string, year: string)
    requires name !in MonthNames && name !in InheritedNames && ' ' !in name && ' ' !in year
    ensures ConvertToMonthYear(name + " " + year) == year + "-undefined"
  {
    assert Join([name, year], ' ') == name + " " + year;
    SplitJoin([name, year], ' ');
  }

  /** For four-digit years, string order on keys is chronological order. */
  lemma KeyOrder(y1: string, i1: int, y2: string, i2: int)
    requires IsYear(y1) && IsYear(y2) && 0 <= i1 < 12 && 0 <= i2 < 12
    ensures LexLe(Key(y1, i1), Key(y2, i2)) <==> Ordinal(y1, i1) <= Ordinal(y2, i2)
  {
    var c1, c2 := MonthCodes[i1], MonthCodes[i2];
    MonthCodesAreTwoDigits(i1);
    MonthCodesAreTwoDigits(i2);
    assert Key(y1, i1) == y1 + ("-" + c1);
    assert Key(y2, i2) == y2 + ("-" + c2);
    LexLeAfterEqualLength(y1, "-" + c1, y2, "-" + c2);
    LexLeAfterEqualLength("-", c1, "-", c2);
    DigitsOrder(y1, y2);
    DigitsOrder(c1, c2);
    if y1 != y2 {
      if DigitsValue(y1) == DigitsValue(y2) { DigitsInjective(y1, y2); }
    }
  }

  /**
   * The range filter on well-formed keys keeps exactly the months between the two
   * ends, both included.
   */
  lemma InRangeIsChronological(y: string, i: int, ys: string, iStart: int, ye: string, iEnd: int)
    requires IsYear(y) && IsYear(ys) && IsYear(ye)
    requires 0 <= i < 12 && 0 <= iStart < 12 && 0 <= iEnd < 12
    ensures InRange(Key(y, i), Key(ys, iStart), Key(ye, iEnd))
        <==> Ordinal(ys, iStart) <= Ordinal(y, i) <= Ordinal(ye, iEnd)
  {
    KeyOrder(ys, iStart, y, i);
    KeyOrder(y, i, ye, iEnd);
  }

  /**
   * A window from January of one year to December of another keeps a well-formed key
   * iff its year lies between the two years.
   */
  lemma YearWindow(y: string, i: int, ys: string, ye: string)
    requires IsYear(y) && IsYear(ys) && IsYear(ye) && 0 <= i < 12
    ensures InRange(Key(y, i), Key(ys, 0), Key(ye, 11)) <==> DigitsValue(ys) <= DigitsValue(y) <= DigitsValue(ye)
  {
    InRangeIsChronological(y, i, ys, 0, ye, 11);
  }

  /** The window `"2018-01"` to `"2024-12"` keeps exactly the keys of the years 2018 to 2024. */
  lemma Window2018To2024(y: string, i: int)
    requires IsYear(y) && 0 <= i < 12
    ensures InRange(Key(y, i), "2018-01", "2024-12") <==> 2018 <= DigitsValue(y) <= 2024
  {
    assert Key("2018", 0) == "2018-01";
    assert Key("2024", 11) == "2024-12";
    assert DigitsValue("2018") == 2018;
    assert DigitsValue("2024") == 2024;
    YearWindow(y, i, "2018", "2024");
  }
}
