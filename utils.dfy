/** The two computations of the shared helpers: the margin of a request and the colour classes of a status. */
module Utils {
  import opened Domain

  /** `calculateMargin(priceFromCustomer, costToDriver)`: what the customer pays beyond what the driver gets. */
  function CalculateMargin(priceFromCustomer: int, costToDriver: int): (margin: int)
    ensures costToDriver + margin == priceFromCustomer
  {
    priceFromCustomer - costToDriver
  }

  /** The margin is not clamped: it is negative exactly when the driver costs more than the customer pays, zero exactly when they are equal. */
  lemma MarginSign(priceFromCustomer: int, costToDriver: int)
    ensures CalculateMargin(priceFromCustomer, costToDriver) < 0 <==> costToDriver > priceFromCustomer
    ensures CalculateMargin(priceFromCustomer, costToDriver) == 0 <==> costToDriver == priceFromCustomer
  {
  }

  /** The class pair shown for a status string that is not one of the five statuses. */
  const FallbackColor: string := "text-gray-600 bg-gray-100"

  /** The `statusColors` table: one class pair per status name. */
  const StatusColors: map<string, string> := map[
    "not_started" := "text-orange-600 bg-orange-100",
    "loading" := "text-blue-600 bg-blue-100",
    "in_transit" := "text-purple-600 bg-purple-100",
    "unloading" := "text-indigo-600 bg-indigo-100",
    "completed" := "text-green-600 bg-green-100"
  ]

  /** The table's keys are exactly the five status names. */
  lemma StatusColorsKeys()
    ensures forall st: Status :: StatusName(st) in StatusColors
    ensures forall k :: k in StatusColors ==> exists st: Status :: StatusName(st) == k
  {
    assert StatusName(NotStarted) in StatusColors;
    assert StatusName(Loading) in StatusColors;
    assert StatusName(InTransit) in StatusColors;
    assert StatusName(Unloading) in StatusColors;
    assert StatusName(Completed) in StatusColors;
  }

  /**
   * `getStatusColor(status)` with the table consulted for its own five keys only: a status name gets its
   * pair, every other string the grey fallback.
   */
  function GetStatusColor(status: string): (color: string)
    ensures status in StatusColors ==> color == StatusColors[status]
    ensures color == FallbackColor <==> status !in StatusColors
  {
    if status in StatusColors then StatusColors[status] else FallbackColor
  }

  /** The five statuses get five different pairs, none of them the fallback. */
  lemma StatusColorsDistinct(a: Status, b: Status)
    ensures a != b ==> GetStatusColor(StatusName(a)) != GetStatusColor(StatusName(b))
    ensures GetStatusColor(StatusName(a)) != FallbackColor
  {
    StatusNamesDistinct(a, b);
  }

  // As written, `statusColors[status] || fallback` reads a plain object literal, so a property
  // inherited from Object.prototype is found as well, and being a function (or, for "__proto__",
  // an object) it is truthy and is returned instead of the fallback.

  /** A JavaScript value as far as this lookup can produce one. */
  datatype JsValue = Str(s: string) | NativeFunction(name: string) | ObjectPrototype

  /** The names every object literal inherits from Object.prototype. */
  const InheritedMethods: set<string> := {
    "constructor", "hasOwnProperty", "isPrototypeOf", "propertyIsEnumerable", "toLocaleString",
    "toString", "valueOf", "__defineGetter__", "__defineSetter__", "__lookupGetter__", "__lookupSetter__"
  }

  /** `statusColors[status] || "text-gray-600 bg-gray-100"` with JavaScript's property lookup and truthiness. */
  function GetStatusColorAsWritten(status: string): (v: JsValue)
    ensures status in StatusColors ==> v == Str(StatusColors[status])
    ensures status in InheritedMethods ==> v == NativeFunction(status)
  {
    if status in StatusColors then
      (if StatusColors[status] == "" then Str(FallbackColor) else Str(StatusColors[status]))
    else if status in InheritedMethods then NativeFunction(status)
    else if status == "__proto__" then ObjectPrototype
    else Str(FallbackColor)
  }

  /** The input that shows it: "toString" is not a status, yet it does not get the fallback. */
  lemma StatusColorInheritedName()
    ensures "toString" !in StatusColors
    ensures GetStatusColorAsWritten("toString") != Str(FallbackColor)
    ensures GetStatusColor("toString") == FallbackColor
  {
  }

  /** Away from the inherited names the code as written and the own-key lookup agree. */
  lemma StatusColorAgreesOffPrototype(status: string)
    requires status !in InheritedMethods && status != "__proto__"
    ensures GetStatusColorAsWritten(status) == Str(GetStatusColor(status))
  {
  }
}
