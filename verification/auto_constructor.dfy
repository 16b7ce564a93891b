/**
 * The `[AutoConstructor]` source generator. `GetData` sorts the fields of a
 * struct into constructor parameters and fields to set to `default`; the
 * generator emits nothing when there is no parameter, and otherwise a public
 * constructor assigning every parameter and then every defaulted field.
 * Roslyn symbols and syntax are abstract records here.
 */
module AutoConstructorGenerator {
  import opened Wrappers

  /** A constructor argument of an attribute: an `int` constant, or any other value. */
  datatype AttributeArgument = IntArgument(value: int) | OtherArgument

  /**
   * The value of `AutoConstructorBehavior.IgnoreAndSetToDefault`. The enum
   * declaration is not part of this model; 0 is the value C# gives a first
   * enum member without an initializer.
   */
  const IgnoreAndSetToDefault: int := 0

  /**
   * A field symbol of the struct. `typeBehavior` holds the constructor
   * arguments of the `AutoConstructorBehaviorAttribute` found on the field's
   * TYPE (not on the field), if that type carries one.
   */
  datatype FieldSymbol = FieldSymbol(
    name: string,
    typeName: string,
    isConst: bool,
    isStatic: bool,
    isFixedSizeBuffer: bool,
    isImplicitlyDeclared: bool,
    typeBehavior: Option<seq<AttributeArgument>>)

  /** A constructor parameter: the fully qualified type name and the field name. */
  datatype ParameterInfo = ParameterInfo(typeName: string, name: string)

  datatype ConstructorInfo = ConstructorInfo(parameters: seq<ParameterInfo>, defaultedFields: seq<string>)

  /** A field that is neither const, static, a fixed-size buffer nor compiler-generated. */
  predicate IsInstanceField(f: FieldSymbol) {
    !f.isConst && !f.isStatic && !f.isFixedSizeBuffer && !f.isImplicitlyDeclared
  }

  /** The field's type asks for `IgnoreAndSetToDefault`, with exactly one attribute argument. */
  predicate HasIgnoreBehavior(f: FieldSymbol) {
    f.typeBehavior.Some?
    && |f.typeBehavior.value| == 1
    && f.typeBehavior.value[0] == IntArgument(IgnoreAndSetToDefault)
  }

  /** Where a field ends up in the constructor. */
  datatype Placement = Dropped | AsParameter | AsDefaulted

  function PlacementOf(f: FieldSymbol): Placement {
    if !IsInstanceField(f) then Dropped
    else if HasIgnoreBehavior(f) then AsDefaulted
    else AsParameter
  }

  function ParameterOf(f: FieldSymbol): ParameterInfo {
    ParameterInfo(f.typeName, f.name)
  }

  /** `Ctor.GetData`: one pass over the fields in declaration order. */
  function GetData(fields: seq<FieldSymbol>): (info: ConstructorInfo)
    ensures |info.parameters| + |info.defaultedFields| <= |fields|
  {
    if |fields| == 0 then ConstructorInfo([], [])
    else
      var info := GetData(fields[..|fields| - 1]);
      var f := fields[|fields| - 1];
      match PlacementOf(f)
      case Dropped => info
      case AsParameter => info.(parameters := info.parameters + [ParameterOf(f)])
      case AsDefaulted => info.(defaultedFields := info.defaultedFields + [f.name])
  }

  /** The positions of the fields with placement `p`, in increasing order. */
  function Selected(fields: seq<FieldSymbol>, p: Placement): (s: seq<nat>)
    ensures forall k :: 0 <= k < |s| ==> s[k] < |fields| && PlacementOf(fields[s[k]]) == p
    ensures forall k, l :: 0 <= k < l < |s| ==> s[k] < s[l]
    ensures forall i :: 0 <= i < |fields| && PlacementOf(fields[i]) == p ==> i in s
  {
    if |fields| == 0 then []
    else
      var s := Selected(fields[..|fields| - 1], p);
      if PlacementOf(fields[|fields| - 1]) == p then s + [|fields| - 1] else s
  }

  /**
   * `GetData` keeps declaration order: the parameters are exactly the fields
   * placed as parameters, in the order the fields are declared.
   */
  lemma {:induction false} ParametersFollowDeclarationOrder(fields: seq<FieldSymbol>)
    ensures var info, ps := GetData(fields), Selected(fields, AsParameter);
            |info.parameters| == |ps|
            && forall k :: 0 <= k < |ps| ==> info.parameters[k] == ParameterOf(fields[ps[k]])
  {
    if |fields| > 0 {
      var init := fields[..|fields| - 1];
      ParametersFollowDeclarationOrder(init);
      var prev, ps := GetData(init).parameters, Selected(init, AsParameter);
      var last := fields[|fields| - 1];
      var now, ps' := GetData(fields).parameters, Selected(fields, AsParameter);
      if PlacementOf(last) == AsParameter {
        assert now == prev + [ParameterOf(last)];
        assert ps' == ps + [|fields| - 1];
      } else {
        assert now == prev;
        assert ps' == ps;
      }
      forall k | 0 <= k < |ps'|
        ensures now[k] == ParameterOf(fields[ps'[k]])
      {
        if k < |ps| {
          assert fields[ps[k]] == init[ps[k]];
        }
      }
    }
  }

  /**
   * Likewise, the defaulted names are exactly the names of the fields placed as
   * defaulted, in the order the fields are declared.
   */
  lemma {:induction false} DefaultedFollowDeclarationOrder(fields: seq<FieldSymbol>)
    ensures var info, ds := GetData(fields), Selected(fields, AsDefaulted);
            |info.defaultedFields| == |ds|
            && forall k :: 0 <= k < |ds| ==> info.defaultedFields[k] == fields[ds[k]].name
  {
    if |fields| > 0 {
      var init := fields[..|fields| - 1];
      DefaultedFollowDeclarationOrder(init);
      var prev, ds := GetData(init).defaultedFields, Selected(init, AsDefaulted);
      var last := fields[|fields| - 1];
      var now, ds' := GetData(fields).defaultedFields, Selected(fields, AsDefaulted);
      if PlacementOf(last) == AsDefaulted {
        assert now == prev + [last.name];
        assert ds' == ds + [|fields| - 1];
      } else {
        assert now == prev;
        assert ds' == ds;
      }
      forall k | 0 <= k < |ds'|
        ensures now[k] == fields[ds'[k]].name
      {
        if k < |ds| {
          assert fields[ds[k]] == init[ds[k]];
        }
      }
    }
  }

  /** The names of the parameters, in order. */
  function ParameterNames(ps: seq<ParameterInfo>): (names: seq<string>)
    ensures |names| == |ps| && forall k :: 0 <= k < |ps| ==> names[k] == ps[k].name
  {
    if |ps| == 0 then [] else [ps[0].name] + ParameterNames(ps[1..])
  }

  /** Field names of a struct are distinct, as C# requires. */
  predicate UniqueNames(fields: seq<FieldSymbol>) {
    forall i, j :: 0 <= i < j < |fields| ==> fields[i].name != fields[j].name
  }

  /** With distinct names, a name identifies its field. */
  lemma SameNameSameField(fields: seq<FieldSymbol>, i: nat, j: nat)
    requires UniqueNames(fields) && i < |fields| && j < |fields|
    requires fields[i].name == fields[j].name
    ensures i == j
  {
  }

  /** Every field placed as a parameter is in the parameter list. */
  lemma PlacedParameterIsListed(fields: seq<FieldSymbol>, i: nat)
    requires i < |fields| && PlacementOf(fields[i]) == AsParameter
    ensures fields[i].name in ParameterNames(GetData(fields).parameters)
  {
    var ps := Selected(fields, AsParameter);
    var names := ParameterNames(GetData(fields).parameters);
    ParametersFollowDeclarationOrder(fields);
    var k :| 0 <= k < |ps| && ps[k] == i;
    assert names[k] == fields[i].name;
  }

  /** With distinct field names, a listed parameter name belongs to a field placed as a parameter. */
  lemma ListedParameterIsPlaced(fields: seq<FieldSymbol>, i: nat)
    requires UniqueNames(fields) && i < |fields|
    requires fields[i].name in ParameterNames(GetData(fields).parameters)
    ensures PlacementOf(fields[i]) == AsParameter
  {
    var ps := Selected(fields, AsParameter);
    var names := ParameterNames(GetData(fields).parameters);
    ParametersFollowDeclarationOrder(fields);
    var k :| 0 <= k < |names| && names[k] == fields[i].name;
    SameNameSameField(fields, ps[k], i);
  }

  /** A field is a parameter exactly when it is an instance field whose type does not ask for a default. */
  lemma ParameterIffPlainInstanceField(fields: seq<FieldSymbol>, i: nat)
    requires UniqueNames(fields) && i < |fields|
    ensures fields[i].name in ParameterNames(GetData(fields).parameters)
            <==> IsInstanceField(fields[i]) && !HasIgnoreBehavior(fields[i])
  {
    if PlacementOf(fields[i]) == AsParameter {
      PlacedParameterIsListed(fields, i);
    }
    if fields[i].name in ParameterNames(GetData(fields).parameters) {
      ListedParameterIsPlaced(fields, i);
    }
  }

  /** Every field placed as defaulted is in the defaulted list. */
  lemma PlacedDefaultedIsListed(fields: seq<FieldSymbol>, i: nat)
    requires i < |fields| && PlacementOf(fields[i]) == AsDefaulted
    ensures fields[i].name in GetData(fields).defaultedFields
  {
    var ds := Selected(fields, AsDefaulted);
    var names := GetData(fields).defaultedFields;
    DefaultedFollowDeclarationOrder(fields);
    var k :| 0 <= k < |ds| && ds[k] == i;
    assert names[k] == fields[i].name;
  }

  /** With distinct field names, a listed defaulted name belongs to a field placed as defaulted. */
  lemma ListedDefaultedIsPlaced(fields: seq<FieldSymbol>, i: nat)
    requires UniqueNames(fields) && i < |fields|
    requires fields[i].name in GetData(fields).defaultedFields
    ensures PlacementOf(fields[i]) == AsDefaulted
  {
    var ds := Selected(fields, AsDefaulted);
    var names := GetData(fields).defaultedFields;
    DefaultedFollowDeclarationOrder(fields);
    var k :| 0 <= k < |names| && names[k] == fields[i].name;
    SameNameSameField(fields, ds[k], i);
  }

  /** A field is defaulted exactly when it is an instance field whose type asks for `IgnoreAndSetToDefault`. */
  lemma DefaultedIffIgnoreBehavior(fields: seq<FieldSymbol>, i: nat)
    requires UniqueNames(fields) && i < |fields|
    ensures fields[i].name in GetData(fields).defaultedFields
            <==> IsInstanceField(fields[i]) && HasIgnoreBehavior(fields[i])
  {
    if PlacementOf(fields[i]) == AsDefaulted {
      PlacedDefaultedIsListed(fields, i);
    }
    if fields[i].name in GetData(fields).defaultedFields {
      ListedDefaultedIsPlaced(fields, i);
    }
  }

  /**
   * Every field lands in exactly one of three places: dropped when it is not an
   * ordinary instance field; defaulted when its type asks for
   * `IgnoreAndSetToDefault` with exactly one argument; a parameter otherwise
   * (any other argument count or value included).
   */
  lemma PlacementOfEachField(fields: seq<FieldSymbol>, i: nat)
    requires UniqueNames(fields) && i < |fields|
    ensures var f, info := fields[i], GetData(fields);
            !(f.name in ParameterNames(info.parameters) && f.name in info.defaultedFields)
            && (f.name !in ParameterNames(info.parameters) && f.name !in info.defaultedFields <==> !IsInstanceField(f))
  {
    ParameterIffPlainInstanceField(fields, i);
    DefaultedIffIgnoreBehavior(fields, i);
  }

  /** A parameter list is empty exactly when every field is dropped or defaulted. */
  lemma NoParametersIffNoPlainInstanceField(fields: seq<FieldSymbol>)
    ensures |GetData(fields).parameters| == 0
            <==> forall i :: 0 <= i < |fields| ==> !IsInstanceField(fields[i]) || HasIgnoreBehavior(fields[i])
  {
    ParametersFollowDeclarationOrder(fields);
    var ps := Selected(fields, AsParameter);
    if |ps| > 0 {
      assert PlacementOf(fields[ps[0]]) == AsParameter;
    }
  }

  // ---------------------------------------------------------------------------
  // The emitted constructor

  /** The part of `HierarchyInfo` the generator reads. */
  datatype HierarchyInfo = HierarchyInfo(filenameHint: string, qualifiedName: string)

  datatype Modifier = Public | Unsafe

  datatype Parameter = Parameter(name: string, typeName: string)

  /** `this.f = f;` or `this.f = default;`. */
  datatype Statement = AssignParameter(field: string) | AssignDefault(field: string)

  datatype Constructor = Constructor(
    typeName: string,
    modifiers: seq<Modifier>,
    parameters: seq<Parameter>,
    body: seq<Statement>)

  /** A generated source file: its hint name and the constructor it declares. */
  datatype GeneratedSource = GeneratedSource(hintName: string, declaration: Constructor)

  /** Some parameter type is a pointer type (its name contains `*`). */
  function HasPointerType(ps: seq<ParameterInfo>): (b: bool)
    ensures b <==> exists k :: 0 <= k < |ps| && '*' in ps[k].typeName
  {
    if |ps| == 0 then false
    else '*' in ps[0].typeName || HasPointerType(ps[1..])
  }

  function Parameters(ps: seq<ParameterInfo>): (r: seq<Parameter>)
    ensures |r| == |ps| && forall k :: 0 <= k < |ps| ==> r[k] == Parameter(ps[k].name, ps[k].typeName)
  {
    if |ps| == 0 then [] else [Parameter(ps[0].name, ps[0].typeName)] + Parameters(ps[1..])
  }

  function ParameterAssignments(ps: seq<ParameterInfo>): (r: seq<Statement>)
    ensures |r| == |ps| && forall k :: 0 <= k < |ps| ==> r[k] == AssignParameter(ps[k].name)
  {
    if |ps| == 0 then [] else [AssignParameter(ps[0].name)] + ParameterAssignments(ps[1..])
  }

  function DefaultAssignments(names: seq<string>): (r: seq<Statement>)
    ensures |r| == |names| && forall k :: 0 <= k < |names| ==> r[k] == AssignDefault(names[k])
  {
    if |names| == 0 then [] else [AssignDefault(names[0])] + DefaultAssignments(names[1..])
  }

  /**
   * `Ctor.GetSyntax`: a public constructor of the type taking the parameters in
   * order, whose body assigns each parameter to its field and then each
   * defaulted field to `default`; it is also `unsafe` when a parameter type is
   * a pointer.
   */
  function GetSyntax(hierarchy: HierarchyInfo, info: ConstructorInfo): (c: Constructor)
    ensures c.typeName == hierarchy.qualifiedName
    ensures |c.modifiers| > 0 && c.modifiers[0] == Public
    ensures Unsafe in c.modifiers <==> exists k :: 0 <= k < |info.parameters| && '*' in info.parameters[k].typeName
    ensures c.modifiers == (if Unsafe in c.modifiers then [Public, Unsafe] else [Public])
    ensures |c.parameters| == |info.parameters|
    ensures forall k :: 0 <= k < |info.parameters| ==>
              c.parameters[k].name == info.parameters[k].name && c.parameters[k].typeName == info.parameters[k].typeName
    ensures |c.body| == |info.parameters| + |info.defaultedFields|
    ensures forall k :: 0 <= k < |info.parameters| ==> c.body[k] == AssignParameter(info.parameters[k].name)
    ensures forall k :: 0 <= k < |info.defaultedFields| ==>
              c.body[|info.parameters| + k] == AssignDefault(info.defaultedFields[k])
  {
    var modifiers := if HasPointerType(info.parameters) then [Public, Unsafe] else [Public];
    Constructor(
      hierarchy.qualifiedName,
      modifiers,
      Parameters(info.parameters),
      ParameterAssignments(info.parameters) + DefaultAssignments(info.defaultedFields))
  }

  /**
   * The generator for one `[AutoConstructor]` struct: nothing when the
   * parameter list is empty (even with defaulted fields), otherwise the
   * constructor, under the hint name `<filename hint>.Ctor`.
   */
  function Generate(hierarchy: HierarchyInfo, fields: seq<FieldSymbol>): (r: Option<GeneratedSource>)
    ensures r.None? <==> forall i :: 0 <= i < |fields| ==> !IsInstanceField(fields[i]) || HasIgnoreBehavior(fields[i])
    ensures r.Some? ==> r.value.hintName == hierarchy.filenameHint + ".Ctor"
    ensures r.Some? ==> r.value.declaration == GetSyntax(hierarchy, GetData(fields))
  {
    NoParametersIffNoPlainInstanceField(fields);
    var info := GetData(fields);
    if |info.parameters| == 0 then None
    else Some(GeneratedSource(hierarchy.filenameHint + ".Ctor", GetSyntax(hierarchy, info)))
  }

  /**
   * A struct whose only field is a `readonly` instance field of a type without
   * the behaviour attribute, such as a shader holding one buffer, gets a
   * one-parameter constructor with a single assignment.
   */
  lemma SingleFieldStruct(hierarchy: HierarchyInfo, name: string, typeName: string)
    requires '*' !in typeName
    ensures var r := Generate(hierarchy, [FieldSymbol(name, typeName, false, false, false, false, None)]);
            r == Some(GeneratedSource(
                   hierarchy.filenameHint + ".Ctor",
                   Constructor(hierarchy.qualifiedName, [Public], [Parameter(name, typeName)], [AssignParameter(name)])))
  {
    var fields := [FieldSymbol(name, typeName, false, false, false, false, None)];
    assert fields[..0] == [];
    var info := ConstructorInfo([ParameterInfo(typeName, name)], []);
    assert GetData(fields) == info;
    assert !HasPointerType(info.parameters);
    assert Parameters(info.parameters) == [Parameter(name, typeName)];
    assert ParameterAssignments(info.parameters) + DefaultAssignments([]) == [AssignParameter(name)];
  }
}
