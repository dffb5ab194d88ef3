/**
 * `getEventTypeText`: the badge text for a severity name. The source looks
 * the name up in a plain object literal and falls back to "INFO" when the
 * lookup is falsy.
 */
module EventTypes {

  /** The four severity names the badge table lists. */
  const Severities: set<string> := {"info", "success", "warning", "error"}

  /** The table's own entries. */
  const TypeLabels: map<string, string> :=
    map["info" := "INFO", "success" := "SUCCESS", "warning" := "WARNING", "error" := "ERROR"]

  /**
   * Names every plain object inherits from Object.prototype; looking one of
   * them up yields a function or an object, which is truthy.
   */
  const InheritedNames: set<string> := {
    "constructor", "hasOwnProperty", "isPrototypeOf", "propertyIsEnumerable",
    "toString", "toLocaleString", "valueOf", "__proto__",
    "__defineGetter__", "__defineSetter__", "__lookupGetter__", "__lookupSetter__"
  }

  function UpperChar(c: char): char
  {
    if 'a' <= c <= 'z' then (c as int - 32) as char else c
  }

  /** ASCII upper-casing, an independent description of the table. */
  function Upper(s: string): (r: string)
    ensures |r| == |s|
  {
    seq(|s|, i requires 0 <= i < |s| => UpperChar(s[i]))
  }

  /**
   * The badge text the dashboard evidently means: the upper-case severity
   * for the four known names, "INFO" for every other name.
   */
  function EventTypeText(kind: string): (r: string)
    ensures kind in Severities ==> r == Upper(kind)
    ensures kind !in Severities ==> r == "INFO"
    ensures r in TypeLabels.Values
  {
    assert TypeLabels["info"] == "INFO";
    if kind in TypeLabels then TypeLabels[kind] else "INFO"
  }

  /** What `typeMap[type] || "INFO"` evaluates to. */
  datatype Lookup = Label(text: string) | InheritedMember(name: string)

  /** The source's lookup as written, including the prototype chain. */
  function EventTypeTextAsWritten(kind: string): (r: Lookup)
    ensures kind in TypeLabels ==> r == Label(TypeLabels[kind])
    ensures r.InheritedMember? <==> kind in InheritedNames
    ensures kind !in TypeLabels && kind !in InheritedNames ==> r == Label("INFO")
  {
    if kind in TypeLabels then Label(TypeLabels[kind])
    else if kind in InheritedNames then InheritedMember(kind)
    else Label("INFO")
  }

  /** The two agree on every name except the inherited ones. */
  lemma AsWrittenAgreesExceptInherited(kind: string)
    ensures EventTypeTextAsWritten(kind) == Label(EventTypeText(kind)) <==> kind !in InheritedNames
  {
  }

  /** The severity "constructor" gets Object's constructor, not "INFO". */
  lemma ConstructorIsNotInfo()
    ensures EventTypeTextAsWritten("constructor") == InheritedMember("constructor")
    ensures EventTypeText("constructor") == "INFO"
  {
  }
}
