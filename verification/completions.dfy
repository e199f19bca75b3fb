/** The completion tables of util.py: the Apex library tables (`parse_method`, util.py:1428-1452,
    `parse_properties`, util.py:1454-1460, `parse_all`, util.py:1462-1509), the tables built from
    a class's symbol table (`parse_symbol_table`, util.py:509-583) and the field list of an
    sObject (`get_sobject_completion_list`, util.py:246-275). The JSON inputs are given as typed
    records; a key the code tests for with `in` is an `Option` or an empty list. */
module Completions {
  import opened Strings
  import opened Values

  /** A parameter: its type and name. */
  datatype Param = Param(paramType: string, name: string)

  /** A method or constructor of the Apex library description; an empty `parameters` stands for
      an empty or missing list, both of which the code treats as "no parameters". */
  datatype MethodDecl = MethodDecl(name: string, returnType: string, parameters: seq<Param>)

  /** A property of the Apex library description. */
  datatype PropertyDecl = PropertyDecl(name: string)

  /** `p["type"] + " " + p["name"]`. */
  function Display(p: Param): string {
    p.paramType + " " + p.name
  }

  function Displays(ps: seq<Param>): (r: seq<string>)
    ensures |r| == |ps| && forall i :: 0 <= i < |ps| ==> r[i] == Display(ps[i])
  {
    seq(|ps|, i requires 0 <= i < |ps| => Display(ps[i]))
  }

  /** The snippet tab stops `${1:t1}`, ..., `${n:tn}` around the texts, numbered from one in order. */
  function Numbered(texts: seq<string>): (r: seq<string>)
    ensures |r| == |texts|
    ensures forall i :: 0 <= i < |texts| ==> r[i] == "${" + DecimalString(i + 1) + ":" + texts[i] + "}"
  {
    seq(|texts|, i requires 0 <= i < |texts| => "${" + DecimalString(i + 1) + ":" + texts[i] + "}")
  }

  /** Tab stops with different digit strings differ. */
  lemma TabStopsDiffer(a: string, b: string, x: string, y: string)
    requires IsDigits(a) && IsDigits(b) && a != b
    ensures "${" + a + ":" + x + "}" != "${" + b + ":" + y + "}"
  {
    var s := "${" + a + ":" + x + "}";
    var t := "${" + b + ":" + y + "}";
    assert s[2..2 + |a|] == a && t[2..2 + |b|] == b;
    if |a| < |b| {
      assert s[2 + |a|] == ':' && t[2 + |a|] == b[|a|];
    } else if |b| < |a| {
      assert t[2 + |b|] == ':' && s[2 + |b|] == a[|b|];
    }
  }

  /** Two tab stops of one snippet never carry the same number. */
  lemma NumberedDistinct(texts: seq<string>, i: int, j: int)
    requires 0 <= i < j < |texts|
    ensures Numbered(texts)[i] != Numbered(texts)[j]
  {
    DecimalRoundTrip(i + 1);
    DecimalRoundTrip(j + 1);
    TabStopsDiffer(DecimalString(i + 1), DecimalString(j + 1), texts[i], texts[j]);
  }

  /** The loop `for p in parameters: params.append(p["type"] + " " + p["name"])`. */
  method DisplayParameters(parameters: seq<Param>) returns (display: seq<string>)
    ensures display == Displays(parameters)
  {
    display := [];
    var j := 0;
    while j < |parameters|
      invariant 0 <= j <= |parameters|
      invariant display == Displays(parameters)[..j]
    {
      var parameter := parameters[j];
      display := display + [parameter.paramType + " " + parameter.name];
      j := j + 1;
    }
  }

  /** The loop that wraps the i-th parameter text as the tab stop `${i+1:text}`. */
  method NumberParameters(texts: seq<string>) returns (tabStops: seq<string>)
    ensures tabStops == Numbered(texts)
  {
    tabStops := [];
    var j := 0;
    while j < |texts|
      invariant 0 <= j <= |texts|
      invariant tabStops == Numbered(texts)[..j]
    {
      tabStops := tabStops + ["${" + DecimalString(j + 1) + ":" + texts[j] + "}"];
      j := j + 1;
    }
  }

  // ----- parse_method (util.py:1428-1452) -----

  /** The completion of one library method (or constructor, when `isMethod` is false, which shows
      no return type): none for an empty name; `name()$0` without parameters; otherwise the
      parameters as numbered tab stops. */
  function MethodEntry(m: MethodDecl, isMethod: bool): Option<(string, string)> {
    if m.name == "" then None
    else
      var returnType := if isMethod then m.returnType else "";
      if |m.parameters| == 0 then Some((m.name + "()\t" + returnType, m.name + "()$0"))
      else
        var display := Displays(m.parameters);
        Some((m.name + "(" + Join(",", display) + ")\t" + returnType, m.name + "(" + Join(",", Numbered(display)) + ")$0"))
  }

  function MethodEntries(methods: seq<MethodDecl>, isMethod: bool): (r: seq<Option<(string, string)>>)
    ensures |r| == |methods| && forall i :: 0 <= i < |methods| ==> r[i] == MethodEntry(methods[i], isMethod)
  {
    seq(|methods|, i requires 0 <= i < |methods| => MethodEntry(methods[i], isMethod))
  }

  method ParseMethod(methods: seq<MethodDecl>, isMethod: bool) returns (methodsDict: Dict<string, string>)
    ensures methodsDict == Assign([], MethodEntries(methods, isMethod))
  {
    ghost var entries := MethodEntries(methods, isMethod);
    methodsDict := [];
    if |methods| == 0 {
      return;
    }
    var i := 0;
    while i < |methods|
      invariant 0 <= i <= |methods|
      invariant Assign(methodsDict, entries[i..]) == Assign([], entries)
    {
      var decl := methods[i];
      assert entries[i..][1..] == entries[i + 1..];
      if decl.name == "" {
        i := i + 1;
        continue;
      }
      assert entries[i] == MethodEntry(decl, isMethod);
      var returnType := if isMethod then decl.returnType else "";
      var key, value;
      if |decl.parameters| == 0 {
        key, value := decl.name + "()\t" + returnType, decl.name + "()$0";
      } else {
        var displayParameters := DisplayParameters(decl.parameters);
        var returnParameters := NumberParameters(displayParameters);
        key := decl.name + "(" + Join(",", displayParameters) + ")\t" + returnType;
        value := decl.name + "(" + Join(",", returnParameters) + ")$0";
      }
      assert entries[i] == Some((key, value));
      methodsDict := Put(methodsDict, key, value);
      i := i + 1;
    }
  }

  /** `parse_method`: no completion for a method with an empty name; the completion shown for a
      method is the one of the last method with the same key; a method without parameters
      inserts `name()$0`; one with n parameters inserts the tab stops 1..n in parameter order. */
  lemma ParseMethodTable(methods: seq<MethodDecl>, isMethod: bool, key: string)
    ensures var r := Assign([], MethodEntries(methods, isMethod));
      var k := LastAssigned(MethodEntries(methods, isMethod), key);
      && NoDuplicates(Keys(r))
      && (HasKey(r, key) <==> k >= 0)
      && (k >= 0 ==>
            var m := methods[k];
            && m.name != ""
            && (|m.parameters| == 0 ==> Get(r, key) == m.name + "()$0")
            && (|m.parameters| > 0 ==> Get(r, key) == m.name + "(" + Join(",", Numbered(Displays(m.parameters))) + ")$0"))
  {
    AssignLookup([], MethodEntries(methods, isMethod), key);
  }

  // ----- parse_properties (util.py:1454-1460) -----

  function PropertyEntries(properties: seq<PropertyDecl>): (r: seq<Option<(string, string)>>)
    ensures |r| == |properties|
    ensures forall i :: 0 <= i < |properties| ==> r[i] == Some((properties[i].name, properties[i].name + "$0"))
  {
    seq(|properties|, i requires 0 <= i < |properties| => Some((properties[i].name, properties[i].name + "$0")))
  }

  method ParseProperties(properties: seq<PropertyDecl>) returns (propertiesDict: Dict<string, string>)
    ensures propertiesDict == Assign([], PropertyEntries(properties))
  {
    ghost var entries := PropertyEntries(properties);
    propertiesDict := [];
    if |properties| == 0 {
      return;
    }
    var i := 0;
    while i < |properties|
      invariant 0 <= i <= |properties|
      invariant Assign(propertiesDict, entries[i..]) == Assign([], entries)
    {
      assert entries[i..][1..] == entries[i + 1..];
      var property := properties[i];
      propertiesDict := Put(propertiesDict, property.name, property.name + "$0");
      i := i + 1;
    }
  }

  /** `parse_properties`: every property name is a key, and it inserts the name followed by `$0`. */
  lemma ParsePropertiesTable(properties: seq<PropertyDecl>, name: string)
    ensures var r := Assign([], PropertyEntries(properties));
      && NoDuplicates(Keys(r))
      && (HasKey(r, name) <==> exists i :: 0 <= i < |properties| && properties[i].name == name)
      && (HasKey(r, name) ==> Get(r, name) == name + "$0")
  {
    var es := PropertyEntries(properties);
    AssignLookup([], es, name);
    if exists i :: 0 <= i < |properties| && properties[i].name == name {
      var i :| 0 <= i < |properties| && properties[i].name == name;
      assert es[i].Some? && es[i].value.0 == name;
    }
  }

  // ----- parse_symbol_table (util.py:509-583) -----

  /** A constructor of a symbol table; `visibility` is absent when the key is missing, and an
      empty `parameters` stands for a missing, non-list or empty value. */
  datatype Constructor = Constructor(name: string, visibility: Option<string>, parameters: seq<Param>)

  /** A property of a symbol table; `propertyType` is absent when the key is missing. */
  datatype Property = Property(name: string, visibility: Option<string>, propertyType: Option<string>)

  /** A method of a symbol table. */
  datatype Method = Method(name: string, visibility: Option<string>, parameters: seq<Param>, returnType: string)

  /** An inner class of a symbol table. */
  datatype InnerClass = InnerClass(name: string, constructors: seq<Constructor>)

  /** The parts of a symbol table the completions are built from; a missing key is an empty list. */
  datatype SymbolTable = SymbolTable(constructors: seq<Constructor>, properties: seq<Property>, methods: seq<Method>, innerClasses: seq<InnerClass>)

  /** `c["visibility"].capitalize() if "visibility" in c else "Public"`. */
  function Visibility(v: Option<string>): string {
    if v.Some? then Capitalize(v.value) else "Public"
  }

  /** A constructor parameter as shown: the type capitalised, then the name. */
  function CtorParams(ps: seq<Param>): (r: seq<string>)
    ensures |r| == |ps| && forall i :: 0 <= i < |ps| ==> r[i] == Capitalize(ps[i].paramType) + " " + ps[i].name
  {
    seq(|ps|, i requires 0 <= i < |ps| => Capitalize(ps[i].paramType) + " " + ps[i].name)
  }

  /** The completion of a constructor; `insertName` is the name the completion inserts (the
      constructor's own name at top level, the class name for an inner class). */
  function CtorEntry(c: Constructor, insertName: string): (string, string) {
    var visibility := Visibility(c.visibility);
    if |c.parameters| > 0 then
      var params := CtorParams(c.parameters);
      (visibility + " " + c.name + "(" + Join(", ", params) + ")", insertName + "(" + Join(", ", Numbered(params)) + ")")
    else (visibility + " " + c.name + "()", insertName + "()${1:}")
  }

  function PropertyEntry(c: Property): (string, string) {
    var propertyType := if c.propertyType.Some? && c.propertyType.value != "" then Capitalize(c.propertyType.value) else "";
    (Visibility(c.visibility) + " " + c.name + "\t" + propertyType, c.name)
  }

  /** The completion of a method: one parameter inserts `name(${1:param})`, several the numbered
      tab stops, none `name()${1:}`. */
  function MethodCompletion(c: Method): (string, string) {
    var params := Displays(c.parameters);
    var key := Visibility(c.visibility) + " " + c.name + "(" + Join(", ", params) + ") \t" + c.returnType;
    if |params| == 1 then (key, c.name + "(${1:" + Join(", ", params) + "})")
    else if |params| > 1 then (key, c.name + "(" + Join(", ", Numbered(params)) + ")")
    else (key, c.name + "()${1:}")
  }

  /** The completions of one inner class: one per constructor, or the class itself when it has
      none. */
  function InnerClassEntries(c: InnerClass): (r: seq<Option<(string, string)>>)
    ensures |c.constructors| == 0 ==> r == [Some(("Inner Class " + c.name + "\tInner Class", c.name + "$1"))]
  {
    if |c.constructors| > 0 then seq(|c.constructors|, j requires 0 <= j < |c.constructors| => Some(CtorEntry(c.constructors[j], c.name)))
    else [Some(("Inner Class " + c.name + "\tInner Class", c.name + "$1"))]
  }

  function InnerEntries(cs: seq<InnerClass>): seq<Option<(string, string)>>
    decreases |cs|
  {
    if |cs| == 0 then [] else InnerClassEntries(cs[0]) + InnerEntries(cs[1..])
  }

  function CtorEntries(cs: seq<Constructor>): (r: seq<Option<(string, string)>>)
    ensures |r| == |cs| && forall i :: 0 <= i < |cs| ==> r[i] == Some(CtorEntry(cs[i], cs[i].name))
  {
    seq(|cs|, i requires 0 <= i < |cs| => Some(CtorEntry(cs[i], cs[i].name)))
  }

  function PropertyEntriesOf(cs: seq<Property>): (r: seq<Option<(string, string)>>)
    ensures |r| == |cs| && forall i :: 0 <= i < |cs| ==> r[i] == Some(PropertyEntry(cs[i]))
  {
    seq(|cs|, i requires 0 <= i < |cs| => Some(PropertyEntry(cs[i])))
  }

  function MethodCompletions(cs: seq<Method>): (r: seq<Option<(string, string)>>)
    ensures |r| == |cs| && forall i :: 0 <= i < |cs| ==> r[i] == Some(MethodCompletion(cs[i]))
  {
    seq(|cs|, i requires 0 <= i < |cs| => Some(MethodCompletion(cs[i])))
  }

  /** Every completion of a symbol table, in the order `parse_symbol_table` assigns them:
      constructors, properties, methods, inner classes. */
  function SymbolTableEntries(st: SymbolTable): seq<Option<(string, string)>> {
    CtorEntries(st.constructors) + PropertyEntriesOf(st.properties) + MethodCompletions(st.methods) + InnerEntries(st.innerClasses)
  }

  /** `parse_symbol_table`: no table (or an empty one) gives no completions. */
  function SymbolTableCompletions(symbolTable: Option<SymbolTable>): Dict<string, string> {
    if symbolTable.None? then [] else Assign([], SymbolTableEntries(symbolTable.value))
  }

  /** The loop `params.append(p["type"].capitalize() + " " + p["name"])` of the constructors. */
  method CapitalizedParameters(parameters: seq<Param>) returns (params: seq<string>)
    ensures params == CtorParams(parameters)
  {
    params := [];
    var j := 0;
    while j < |parameters|
      invariant 0 <= j <= |parameters|
      invariant params == CtorParams(parameters)[..j]
    {
      var p := parameters[j];
      params := params + [Capitalize(p.paramType) + " " + p.name];
      j := j + 1;
    }
  }

  /** The completion of one constructor, as the loop bodies of util.py:519-533 and 564-579 write it. */
  method ConstructorCompletion(c: Constructor, insertName: string) returns (key: string, value: string)
    ensures (key, value) == CtorEntry(c, insertName)
  {
    var visibility := if c.visibility.Some? then Capitalize(c.visibility.value) else "Public";
    if |c.parameters| > 0 {
      var params := CapitalizedParameters(c.parameters);
      var paramStrings := NumberParameters(params);
      key, value := visibility + " " + c.name + "(" + Join(", ", params) + ")", insertName + "(" + Join(", ", paramStrings) + ")";
    } else {
      key, value := visibility + " " + c.name + "()", insertName + "()${1:}";
    }
  }

  /** The constructors loop of util.py:518-533. */
  method AddConstructors(completions: Dict<string, string>, constructors: seq<Constructor>) returns (r: Dict<string, string>)
    ensures r == Assign(completions, CtorEntries(constructors))
  {
    ghost var entries := CtorEntries(constructors);
    r := completions;
    var i := 0;
    while i < |constructors|
      invariant 0 <= i <= |constructors|
      invariant Assign(r, entries[i..]) == Assign(completions, entries)
    {
      assert entries[i..][1..] == entries[i + 1..];
      var key, value := ConstructorCompletion(constructors[i], constructors[i].name);
      r := Put(r, key, value);
      i := i + 1;
    }
  }

  /** The properties loop of util.py:535-539. */
  method AddProperties(completions: Dict<string, string>, properties: seq<Property>) returns (r: Dict<string, string>)
    ensures r == Assign(completions, PropertyEntriesOf(properties))
  {
    ghost var entries := PropertyEntriesOf(properties);
    r := completions;
    var i := 0;
    while i < |properties|
      invariant 0 <= i <= |properties|
      invariant Assign(r, entries[i..]) == Assign(completions, entries)
    {
      assert entries[i..][1..] == entries[i + 1..];
      var c := properties[i];
      var visibility := if c.visibility.Some? then Capitalize(c.visibility.value) else "Public";
      var propertyType := if c.propertyType.Some? && c.propertyType.value != "" then Capitalize(c.propertyType.value) else "";
      r := Put(r, visibility + " " + c.name + "\t" + propertyType, c.name);
      i := i + 1;
    }
  }

  /** The methods loop of util.py:541-560. */
  method AddMethods(completions: Dict<string, string>, methods: seq<Method>) returns (r: Dict<string, string>)
    ensures r == Assign(completions, MethodCompletions(methods))
  {
    ghost var entries := MethodCompletions(methods);
    r := completions;
    var i := 0;
    while i < |methods|
      invariant 0 <= i <= |methods|
      invariant Assign(r, entries[i..]) == Assign(completions, entries)
    {
      assert entries[i..][1..] == entries[i + 1..];
      var key, value := MethodSnippet(methods[i]);
      r := Put(r, key, value);
      i := i + 1;
    }
  }

  /** One iteration of util.py:542-560: the key and the snippet of one method. */
  method MethodSnippet(c: Method) returns (key: string, value: string)
    ensures (key, value) == MethodCompletion(c)
  {
    var visibility := if c.visibility.Some? then Capitalize(c.visibility.value) else "Public";
    var params := DisplayParameters(c.parameters);
    key := visibility + " " + c.name + "(" + Join(", ", params) + ") \t" + c.returnType;
    if |params| == 1 {
      value := c.name + "(${1:" + Join(", ", params) + "})";
    } else if |params| > 1 {
      var paramStrings := NumberParameters(params);
      value := c.name + "(" + Join(", ", paramStrings) + ")";
    } else {
      value := c.name + "()${1:}";
    }
  }

  /** One inner class of util.py:562-581. */
  method AddInnerClass(completions: Dict<string, string>, c: InnerClass) returns (r: Dict<string, string>)
    ensures r == Assign(completions, InnerClassEntries(c))
  {
    ghost var entries := InnerClassEntries(c);
    r := completions;
    if |c.constructors| > 0 {
      var j := 0;
      while j < |c.constructors|
        invariant 0 <= j <= |c.constructors|
        invariant Assign(r, entries[j..]) == Assign(completions, entries)
      {
        assert entries[j..][1..] == entries[j + 1..];
        var key, value := ConstructorCompletion(c.constructors[j], c.name);
        r := Put(r, key, value);
        j := j + 1;
      }
    } else {
      r := Put(r, "Inner Class " + c.name + "\tInner Class", c.name + "$1");
    }
  }

  method ParseSymbolTable(symbolTable: Option<SymbolTable>) returns (completions: Dict<string, string>)
    ensures completions == SymbolTableCompletions(symbolTable)
  {
    completions := [];
    if symbolTable.None? {
      return;
    }
    var st := symbolTable.value;
    ghost var ctors, props, methods := CtorEntries(st.constructors), PropertyEntriesOf(st.properties), MethodCompletions(st.methods);
    AssignConcat([], ctors + props + methods, InnerEntries(st.innerClasses));
    AssignConcat([], ctors + props, methods);
    AssignConcat([], ctors, props);
    completions := AddConstructors(completions, st.constructors);
    completions := AddProperties(completions, st.properties);
    completions := AddMethods(completions, st.methods);
    var i := 0;
    while i < |st.innerClasses|
      invariant 0 <= i <= |st.innerClasses|
      invariant Assign(completions, InnerEntries(st.innerClasses[i..])) == SymbolTableCompletions(symbolTable)
    {
      assert st.innerClasses[i..][1..] == st.innerClasses[i + 1..];
      AssignConcat(completions, InnerClassEntries(st.innerClasses[i]), InnerEntries(st.innerClasses[i + 1..]));
      completions := AddInnerClass(completions, st.innerClasses[i]);
      i := i + 1;
    }
  }

  /** The special case for a method with one parameter inserts exactly what the general
      numbering would insert. */
  lemma OneParameterIsNumbered(name: string, param: string)
    ensures name + "(${1:" + Join(", ", [param]) + "})" == name + "(" + Join(", ", Numbered([param])) + ")"
  {
    var numbered := Numbered([param]);
    assert DecimalString(1) == "1";
    assert numbered[0] == "${1:" + param + "}";
    assert Join(", ", numbered) == numbered[0];
  }

  /** `parse_symbol_table`: a completion label is present exactly when some constructor, property,
      method or inner class produces it, and it inserts what the LAST of those produces. */
  lemma SymbolTableLookup(st: SymbolTable, key: string)
    ensures var r := SymbolTableCompletions(Some(st));
      var es := SymbolTableEntries(st);
      && NoDuplicates(Keys(r))
      && (HasKey(r, key) <==> LastAssigned(es, key) >= 0)
      && (HasKey(r, key) ==> Get(r, key) == es[LastAssigned(es, key)].value.1)
  {
    AssignLookup([], SymbolTableEntries(st), key);
  }

  // ----- parse_all (util.py:1462-1509) -----

  /** The description of one class of the Apex library. */
  datatype ClassDetail = ClassDetail(constructors: seq<MethodDecl>, methods: seq<MethodDecl>, properties: seq<PropertyDecl>)

  /** The completion tables of one class, with the namespace it was found in and its name. */
  datatype ClassInfo = ClassInfo(
    constructors: Dict<string, string>,
    methods: Dict<string, string>,
    properties: Dict<string, string>,
    namespace: string,
    name: string)

  /** The value stored under a lower-cased class name: the class itself, or, once the name is met
      again, the two-element list `[previous, last]` (which nests when the name is met a third time). */
  datatype Completion = One(info: ClassInfo) | Pair(previous: Completion, last: ClassInfo)

  /** The classes a stored value holds, in the order they were met. */
  function Flatten(c: Completion): (r: seq<ClassInfo>)
    ensures |r| >= 1
  {
    match c
    case One(info) => [info]
    case Pair(previous, last) => Flatten(previous) + [last]
  }

  /** The tables of one class: its constructors without return types, its methods, its properties. */
  function Info(namespace: string, className: string, detail: ClassDetail): ClassInfo {
    ClassInfo(
      Assign([], MethodEntries(detail.constructors, false)),
      Assign([], MethodEntries(detail.methods, true)),
      Assign([], PropertyEntries(detail.properties)),
      namespace, className)
  }

  /** The classes of one namespace, in order. */
  function NamespaceClasses(namespace: string, classes: Dict<string, ClassDetail>): (r: seq<ClassInfo>)
    ensures |r| == |classes|
    ensures forall i :: 0 <= i < |classes| ==> r[i] == Info(namespace, classes[i].0, classes[i].1)
  {
    seq(|classes|, i requires 0 <= i < |classes| => Info(namespace, classes[i].0, classes[i].1))
  }

  /** Every class of the library, namespace after namespace. */
  function Classes(apex: Dict<string, Dict<string, ClassDetail>>): seq<ClassInfo>
    decreases |apex|
  {
    if |apex| == 0 then [] else NamespaceClasses(apex[0].0, apex[0].1) + Classes(apex[1..])
  }

  /** Recording one class under its lower-cased name. */
  function AddClass(d: Dict<string, Completion>, info: ClassInfo): Dict<string, Completion> {
    var key := Lower(info.name);
    if HasKey(d, key) then Put(d, key, Pair(Get(d, key), info)) else Put(d, key, One(info))
  }

  function AddClasses(d: Dict<string, Completion>, infos: seq<ClassInfo>): Dict<string, Completion>
    decreases |infos|
  {
    if |infos| == 0 then d else AddClasses(AddClass(d, infos[0]), infos[1..])
  }

  /** `parse_all(apex)`. */
  function ApexCompletions(apex: Dict<string, Dict<string, ClassDetail>>): Dict<string, Completion> {
    AddClasses([], Classes(apex))
  }

  lemma {:induction false} AddClassesConcat(d: Dict<string, Completion>, a: seq<ClassInfo>, b: seq<ClassInfo>)
    ensures AddClasses(d, a + b) == AddClasses(AddClasses(d, a), b)
    decreases |a|
  {
    if |a| > 0 {
      assert (a + b)[0] == a[0] && (a + b)[1..] == a[1..] + b;
      AddClassesConcat(AddClass(d, a[0]), a[1..], b);
    } else {
      assert a + b == b;
    }
  }

  /** The classes named `key` once lower-cased, in order. */
  function Matching(infos: seq<ClassInfo>, key: string): (r: seq<ClassInfo>)
    ensures forall i :: 0 <= i < |r| ==> Lower(r[i].name) == key
    decreases |infos|
  {
    if |infos| == 0 then []
    else (if Lower(infos[0].name) == key then [infos[0]] else []) + Matching(infos[1..], key)
  }

  /** The classes stored under `key`, or none. */
  function Stored(d: Dict<string, Completion>, key: string): seq<ClassInfo> {
    if HasKey(d, key) then Flatten(Get(d, key)) else []
  }

  /** The loop over the classes of one namespace (util.py:1481-1507). */
  method AddNamespace(completions: Dict<string, Completion>, namespace: string, classes: Dict<string, ClassDetail>)
    returns (r: Dict<string, Completion>)
    ensures r == AddClasses(completions, NamespaceClasses(namespace, classes))
  {
    ghost var infos := NamespaceClasses(namespace, classes);
    r := completions;
    var j := 0;
    while j < |classes|
      invariant 0 <= j <= |classes|
      invariant AddClasses(r, infos[j..]) == AddClasses(completions, infos)
    {
      assert infos[j..][1..] == infos[j + 1..];
      var (className, classDetail) := classes[j];
      var constructorsDict := ParseMethod(classDetail.constructors, false);
      var methodsDict := ParseMethod(classDetail.methods, true);
      var propertiesDict := ParseProperties(classDetail.properties);
      var info := ClassInfo(constructorsDict, methodsDict, propertiesDict, namespace, className);
      var key := Lower(className);
      if HasKey(r, key) {
        r := Put(r, key, Pair(Get(r, key), info));
      } else {
        r := Put(r, key, One(info));
      }
      j := j + 1;
    }
  }

  method ParseAll(apex: Dict<string, Dict<string, ClassDetail>>) returns (apexCompletions: Dict<string, Completion>)
    ensures apexCompletions == ApexCompletions(apex)
  {
    apexCompletions := [];
    var i := 0;
    while i < |apex|
      invariant 0 <= i <= |apex|
      invariant AddClasses(apexCompletions, Classes(apex[i..])) == ApexCompletions(apex)
    {
      assert apex[i..][1..] == apex[i + 1..];
      AddClassesConcat(apexCompletions, NamespaceClasses(apex[i].0, apex[i].1), Classes(apex[i + 1..]));
      apexCompletions := AddNamespace(apexCompletions, apex[i].0, apex[i].1);
      i := i + 1;
    }
    assert apex[i..] == [];
  }

  /** Recording a class keeps the names free of repeats. */
  lemma AddClassKeys(d: Dict<string, Completion>, info: ClassInfo)
    requires NoDuplicates(Keys(d))
    ensures NoDuplicates(Keys(AddClass(d, info)))
  {
    var k := Lower(info.name);
    PutKeys(d, k, if HasKey(d, k) then Pair(Get(d, k), info) else One(info));
  }

  /** Recording a class appends it to what is stored under its own name and leaves other names alone. */
  lemma AddClassStored(d: Dict<string, Completion>, info: ClassInfo, key: string)
    requires NoDuplicates(Keys(d))
    ensures Stored(AddClass(d, info), key) == Stored(d, key) + (if Lower(info.name) == key then [info] else [])
  {
    var k := Lower(info.name);
    PutGet(d, k, if HasKey(d, k) then Pair(Get(d, k), info) else One(info), key);
  }

  lemma {:induction false} AddClassesKeys(d: Dict<string, Completion>, infos: seq<ClassInfo>)
    requires NoDuplicates(Keys(d))
    ensures NoDuplicates(Keys(AddClasses(d, infos)))
    decreases |infos|
  {
    if |infos| > 0 {
      AddClassKeys(d, infos[0]);
      AddClassesKeys(AddClass(d, infos[0]), infos[1..]);
    }
  }

  lemma {:induction false} AddClassesStored(d: Dict<string, Completion>, infos: seq<ClassInfo>, key: string)
    requires NoDuplicates(Keys(d))
    ensures Stored(AddClasses(d, infos), key) == Stored(d, key) + Matching(infos, key)
    decreases |infos|
  {
    if |infos| > 0 {
      var info, rest := infos[0], infos[1..];
      var next := AddClass(d, info);
      var own := if Lower(info.name) == key then [info] else [];
      AddClassKeys(d, info);
      AddClassStored(d, info, key);
      AddClassesStored(next, rest, key);
      assert AddClasses(d, infos) == AddClasses(next, rest);
      assert Matching(infos, key) == own + Matching(rest, key);
      ConcatAssoc(Stored(d, key), own, Matching(rest, key));
    } else {
      assert Stored(d, key) + [] == Stored(d, key);
    }
  }

  /** `parse_all`: a lower-cased name is a key exactly when some class of some namespace has that
      name; the value stored under it holds every such class, in namespace order, and is the class
      itself (not a list) when only one class has the name. */
  lemma ParseAllTable(apex: Dict<string, Dict<string, ClassDetail>>, key: string)
    ensures var r := ApexCompletions(apex);
      var named := Matching(Classes(apex), key);
      && NoDuplicates(Keys(r))
      && (HasKey(r, key) <==> |named| > 0)
      && (HasKey(r, key) ==> Flatten(Get(r, key)) == named)
      && (|named| == 1 ==> Get(r, key) == One(named[0]))
  {
    var r := ApexCompletions(apex);
    AddClassesKeys([], Classes(apex));
    AddClassesStored([], Classes(apex), key);
    assert Stored([], key) == [];
    if HasKey(r, key) && Get(r, key).Pair? {
      assert |Flatten(Get(r, key))| >= 2;
    }
  }

  // ----- get_sobject_completion_list (util.py:246-275) -----

  /** The parts of an sObject describe result the completion list is built from: field names to
      their labels, and relationship names to the related sObject. */
  datatype SObjectDescribe = SObjectDescribe(
    fields: Dict<string, string>,
    parentRelationships: Dict<string, string>,
    childRelationships: Dict<string, string>)

  /** `sorted(d)`: the keys of `d` in ascending order. */
  function SortedKeys(d: Dict<string, string>): (ks: seq<string>)
    ensures |ks| == |d| && multiset(ks) == multiset(Keys(d)) && Ascending(ks)
    ensures forall i :: 0 <= i < |ks| ==> HasKey(d, ks[i])
  {
    var ks := Sort(Keys(d));
    assert forall i :: 0 <= i < |ks| ==> ks[i] in multiset(Keys(d));
    ks
  }

  /** The field completions: the prefixed field name, inserting the field's entry. */
  function FieldCompletions(prefix: string, fields: Dict<string, string>): (r: seq<(string, string)>)
    ensures |r| == |fields|
  {
    var ks := SortedKeys(fields);
    seq(|ks|, i requires 0 <= i < |ks| => (prefix + ks[i], Get(fields, ks[i])))
  }

  /** The relationship completions: the prefixed relationship name, a tab, the related sObject and
      the tag; inserting the relationship name. */
  function RelationshipCompletions(prefix: string, relationships: Dict<string, string>, tag: string): (r: seq<(string, string)>)
    ensures |r| == |relationships|
  {
    var ks := SortedKeys(relationships);
    seq(|ks|, i requires 0 <= i < |ks| => (prefix + ks[i] + "\t" + Get(relationships, ks[i]) + tag, ks[i]))
  }

  /** `get_sobject_completion_list(describe, prefix, display_child_relationships)`. */
  function SObjectCompletions(describe: SObjectDescribe, prefix: string, displayChildRelationships: bool): seq<(string, string)> {
    FieldCompletions(prefix, describe.fields)
    + RelationshipCompletions(prefix, describe.parentRelationships, "(c2p)")
    + (if displayChildRelationships then RelationshipCompletions(prefix, describe.childRelationships, "(p2c)") else [])
  }

  /** The relationship loops of util.py:265-273. */
  method AppendRelationships(completionList: seq<(string, string)>, prefix: string, relationships: Dict<string, string>, tag: string)
    returns (r: seq<(string, string)>)
    ensures r == completionList + RelationshipCompletions(prefix, relationships, tag)
  {
    ghost var target := RelationshipCompletions(prefix, relationships, tag);
    var keys := SortedKeys(relationships);
    r := completionList;
    var i := 0;
    while i < |keys|
      invariant 0 <= i <= |keys|
      invariant r == completionList + target[..i]
    {
      var key := keys[i];
      var related := Get(relationships, key);
      r := r + [(prefix + key + "\t" + related + tag, key)];
      assert target[..i + 1] == target[..i] + [target[i]];
      i := i + 1;
    }
    assert target[..i] == target;
  }

  method GetSObjectCompletionList(describe: SObjectDescribe, prefix: string, displayChildRelationships: bool)
    returns (completionList: seq<(string, string)>)
    ensures completionList == SObjectCompletions(describe, prefix, displayChildRelationships)
  {
    ghost var fieldCompletions := FieldCompletions(prefix, describe.fields);
    completionList := [];
    var fields := describe.fields;
    var keys := SortedKeys(fields);
    var i := 0;
    while i < |keys|
      invariant 0 <= i <= |keys|
      invariant completionList == fieldCompletions[..i]
    {
      var fieldNameDesc := keys[i];
      var fieldName := Get(fields, fieldNameDesc);
      completionList := completionList + [(prefix + fieldNameDesc, fieldName)];
      assert fieldCompletions[..i + 1] == fieldCompletions[..i] + [fieldCompletions[i]];
      i := i + 1;
    }
    assert fieldCompletions[..i] == fieldCompletions;
    completionList := AppendRelationships(completionList, prefix, describe.parentRelationships, "(c2p)");
    if displayChildRelationships {
      completionList := AppendRelationships(completionList, prefix, describe.childRelationships, "(p2c)");
    }
  }

  /** Prefixing keeps the order of strings. */
  lemma {:induction false} LessPrefix(prefix: string, a: string, b: string)
    ensures Less(prefix + a, prefix + b) <==> Less(a, b)
    decreases |prefix|
  {
    if |prefix| > 0 {
      assert (prefix + a)[1..] == prefix[1..] + a && (prefix + b)[1..] == prefix[1..] + b;
      LessPrefix(prefix[1..], a, b);
    } else {
      assert prefix + a == a && prefix + b == b;
    }
  }

  /** `part` lists every field of `fields` once, shown as the prefixed field name and inserting the
      field's entry, in strictly ascending order of what is shown. */
  ghost predicate ListsFields(prefix: string, fields: Dict<string, string>, part: seq<(string, string)>) {
    && (forall i, j :: 0 <= i < j < |part| ==> Less(part[i].0, part[j].0))
    && (forall k :: HasKey(fields, k) ==> (prefix + k, Get(fields, k)) in part)
    && (forall i :: 0 <= i < |part| ==>
          && StartsWith(part[i].0, prefix)
          && HasKey(fields, part[i].0[|prefix|..])
          && part[i].1 == Get(fields, part[i].0[|prefix|..]))
  }

  /** `part` lists every relationship of `relationships` once, in strictly ascending order of name,
      shown with the related sObject and `tag` and inserting the relationship name. */
  ghost predicate ListsRelationships(prefix: string, relationships: Dict<string, string>, tag: string, part: seq<(string, string)>) {
    && (forall i, j :: 0 <= i < j < |part| ==> Less(part[i].1, part[j].1))
    && (forall k :: HasKey(relationships, k) ==> (prefix + k + "\t" + Get(relationships, k) + tag, k) in part)
    && (forall i :: 0 <= i < |part| ==>
          HasKey(relationships, part[i].1) && part[i].0 == prefix + part[i].1 + "\t" + Get(relationships, part[i].1) + tag)
  }

  /** A key of a dictionary is among its sorted keys. */
  lemma SortedKeysHas(d: Dict<string, string>, k: string)
    requires HasKey(d, k)
    ensures exists i :: 0 <= i < |SortedKeys(d)| && SortedKeys(d)[i] == k
  {
    var ks := SortedKeys(d);
    assert k in multiset(Keys(d));
    assert k in multiset(ks);
    assert k in ks;
  }

  lemma FieldCompletionsListed(prefix: string, fields: Dict<string, string>)
    requires NoDuplicates(Keys(fields))
    ensures ListsFields(prefix, fields, FieldCompletions(prefix, fields))
  {
    var ks := SortedKeys(fields);
    var r := FieldCompletions(prefix, fields);
    SortDistinct(Keys(fields));
    forall i, j | 0 <= i < j < |r| ensures Less(r[i].0, r[j].0) {
      LessPrefix(prefix, ks[i], ks[j]);
    }
    forall k | HasKey(fields, k) ensures (prefix + k, Get(fields, k)) in r {
      SortedKeysHas(fields, k);
      var i :| 0 <= i < |ks| && ks[i] == k;
      assert r[i] == (prefix + k, Get(fields, k));
    }
    forall i | 0 <= i < |r| ensures StartsWith(r[i].0, prefix) && r[i].0[|prefix|..] == ks[i] {
      assert r[i].0 == prefix + ks[i];
    }
  }

  lemma RelationshipCompletionsListed(prefix: string, relationships: Dict<string, string>, tag: string)
    requires NoDuplicates(Keys(relationships))
    ensures ListsRelationships(prefix, relationships, tag, RelationshipCompletions(prefix, relationships, tag))
  {
    var ks := SortedKeys(relationships);
    var r := RelationshipCompletions(prefix, relationships, tag);
    SortDistinct(Keys(relationships));
    forall i, j | 0 <= i < j < |r| ensures Less(r[i].1, r[j].1) {
      assert r[i].1 == ks[i] && r[j].1 == ks[j];
    }
    forall k | HasKey(relationships, k) ensures (prefix + k + "\t" + Get(relationships, k) + tag, k) in r {
      SortedKeysHas(relationships, k);
      var i :| 0 <= i < |ks| && ks[i] == k;
      assert r[i] == (prefix + k + "\t" + Get(relationships, k) + tag, k);
    }
    forall i | 0 <= i < |r|
      ensures HasKey(relationships, r[i].1) && r[i].0 == prefix + r[i].1 + "\t" + Get(relationships, r[i].1) + tag
    {
      assert r[i] == (prefix + ks[i] + "\t" + Get(relationships, ks[i]) + tag, ks[i]);
    }
  }

  /** `get_sobject_completion_list` on a describe result (whose dictionaries have unique keys):
      the fields come first, then the parent relationships tagged `(c2p)`, then, only when asked
      for, the child relationships tagged `(p2c)`, each group listed completely and in order. */
  lemma SObjectCompletionsShape(describe: SObjectDescribe, prefix: string, displayChildRelationships: bool)
    requires NoDuplicates(Keys(describe.fields))
    requires NoDuplicates(Keys(describe.parentRelationships))
    requires NoDuplicates(Keys(describe.childRelationships))
    ensures var r := SObjectCompletions(describe, prefix, displayChildRelationships);
      var nf, np := |describe.fields|, |describe.parentRelationships|;
      && |r| == nf + np + (if displayChildRelationships then |describe.childRelationships| else 0)
      && ListsFields(prefix, describe.fields, r[..nf])
      && ListsRelationships(prefix, describe.parentRelationships, "(c2p)", r[nf..nf + np])
      && (displayChildRelationships ==> ListsRelationships(prefix, describe.childRelationships, "(p2c)", r[nf + np..]))
  {
    var fs := FieldCompletions(prefix, describe.fields);
    var ps := RelationshipCompletions(prefix, describe.parentRelationships, "(c2p)");
    var cs := if displayChildRelationships then RelationshipCompletions(prefix, describe.childRelationships, "(p2c)") else [];
    var r := SObjectCompletions(describe, prefix, displayChildRelationships);
    assert r == fs + ps + cs;
    assert r[..|fs|] == fs && r[|fs|..|fs| + |ps|] == ps && r[|fs| + |ps|..] == cs;
    FieldCompletionsListed(prefix, describe.fields);
    RelationshipCompletionsListed(prefix, describe.parentRelationships, "(c2p)");
    if displayChildRelationships {
      RelationshipCompletionsListed(prefix, describe.childRelationships, "(p2c)");
    }
  }
}
