/**
 * The two string helpers of the ExtJs façade: the namespace part of a
 * class name, and the ExtJs field type of a .NET type.
 */
module ExtJsHelpers {
  import opened Wrappers

  /** LastIndexOf("."): the position of the last dot, or -1. */
  function LastDot(s: string): (r: int)
    ensures -1 <= r < |s|
    ensures r >= 0 ==> s[r] == '.' && '.' !in s[r + 1..]
    ensures r < 0 <==> '.' !in s
    decreases |s|
  {
    if s == [] then -1
    else if s[|s| - 1] == '.' then |s| - 1
    else
      var r := LastDot(s[..|s| - 1]);
      assert s == s[..|s| - 1] + [s[|s| - 1]];
      assert r >= 0 ==> s[r + 1..] == s[..|s| - 1][r + 1..] + [s[|s| - 1]];
      r
  }

  /** GetNamespace(className): everything before the last dot, or null when there is no dot. */
  function GetNamespace(className: string): (r: Option<string>)
    ensures r.None? <==> '.' !in className
    ensures r.Some? ==> |r.value| < |className| && className[|r.value|] == '.'
                        && className == r.value + "." + className[|r.value| + 1..]
                        && '.' !in className[|r.value| + 1..]
  {
    var lastDot := LastDot(className);
    if lastDot >= 0 then
      assert className == className[..lastDot] + "." + className[lastDot + 1..];
      Some(className[..lastDot])
    else Option.None
  }

  /** The namespace of a qualified name is the qualifier, whatever dots it has itself. */
  lemma NamespaceOfQualifiedName(ns: string, name: string)
    requires '.' !in name
    ensures GetNamespace(ns + "." + name) == Some(ns)
  {
    var s := ns + "." + name;
    assert s[|ns|] == '.';
    var r := GetNamespace(s);
    assert r.Some?;
    assert s[|ns| + 1..] == name;
    assert s[..|ns|] == ns;
  }

  /** A name whose only dot leads it lies in the empty namespace. */
  lemma LeadingDotIsEmptyNamespace(name: string)
    requires '.' !in name
    ensures GetNamespace("." + name) == Some("")
  {
    NamespaceOfQualifiedName("", name);
    assert "" + "." + name == "." + name;
  }

  // ---------------------------------------------------------------------------
  // ExtJsType.

  /** The switch of ExtJsType over a type name. */
  function ExtJsTypeOf(typeName: string): (r: string)
    ensures r in {"int", "float", "date", "bool", "string"}
  {
    match typeName
    case "Int16" => "int"
    case "Int32" => "int"
    case "Int64" => "int"
    case "Double" => "float"
    case "Float" => "float"
    case "Decimal" => "float"
    case "DateTime" => "date"
    case "Boolean" => "bool"
    case _ => "string"
  }

  /** A .NET type, by its namespace and its name. */
  datatype ClrType = ClrType(namespace: string, name: string)

  /** Type.ToString(): the namespace-qualified name. */
  function FullName(t: ClrType): (r: string)
    ensures t.namespace != "" ==> '.' in r
  {
    if t.namespace == "" then t.name
    else
      assert (t.namespace + "." + t.name)[|t.namespace|] == '.';
      t.namespace + "." + t.name
  }

  /** ExtJsType as written: the switch is applied to Type.ToString(). */
  function ExtJsTypeAsWritten(t: ClrType): (r: string)
    ensures r in {"int", "float", "date", "bool", "string"}
  {
    ExtJsTypeOf(FullName(t))
  }

  /** ExtJsType as intended: the switch is applied to the type's own name. */
  function ExtJsType(t: ClrType): (r: string)
    ensures t.name in {"Int16", "Int32", "Int64"} ==> r == "int"
    ensures t.name in {"Double", "Float", "Decimal"} ==> r == "float"
    ensures t.name == "DateTime" ==> r == "date"
    ensures t.name == "Boolean" ==> r == "bool"
    ensures r == "string" <==> t.name !in {"Int16", "Int32", "Int64", "Double", "Float", "Decimal", "DateTime", "Boolean"}
  {
    ExtJsTypeOf(t.name)
  }

  /** No case of the switch has a dot, so a qualified name always falls through to "string". */
  lemma QualifiedNameIsString(typeName: string)
    requires '.' in typeName
    ensures ExtJsTypeOf(typeName) == "string"
  {
  }

  /** As written, every type in a namespace maps to "string": System.Int32 gives "string", not "int". */
  lemma ExtJsTypeAsWrittenIgnoresType(t: ClrType)
    requires t.namespace != ""
    ensures ExtJsTypeAsWritten(t) == "string"
    ensures ExtJsTypeAsWritten(ClrType("System", "Int32")) == "string" && ExtJsType(ClrType("System", "Int32")) == "int"
  {
    QualifiedNameIsString(FullName(t));
    QualifiedNameIsString(FullName(ClrType("System", "Int32")));
  }
}
