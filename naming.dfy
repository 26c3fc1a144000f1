/** The processor's naming rules: class names of annotated declarations, the
    names of the generated builder classes, of the shared multi-item builders
    for collections, of the per-subtype builder functions and of the
    dynamic-value accessors. */
module Naming {
  import opened Names

  const DynamicValueSuffix := "DynamicValue"
  const BuilderSuffix := "Builder"
  const MultiBuilderSuffix := "sBuilder"
  const RollingPrefix := "rolling"
  const KotlinPackage := "kotlin"
  const RelocatedKotlinPackage := "com.nicholasnassar.dslbuilder.kotlin"

  /** The class name of a declaration in package `pkg`: nested in its parent
      class when it has one, top-level otherwise. */
  function DeclaredClassName(pkg: string, parent: Option<string>, simple: string): (r: ClassName)
    ensures r.pkg == pkg && r.simple == simple && |r.outer| <= 1
    ensures r.outer == [] <==> parent.None?
    ensures parent.Some? ==> r.outer == [parent.value]
  {
    match parent
    case Some(p) => ClassName(pkg, [p], simple)
    case None => ClassName(pkg, [], simple)
  }

  /** The builder generated for a (possibly once-nested) class: a top-level
      class of the same package named after the enclosing class, the class
      itself and the suffix `Builder`. */
  function BuilderClassName(base: ClassName): ClassName
  {
    if base != base.TopLevel() then ClassName(base.pkg, [], base.outer[0] + base.simple + BuilderSuffix)
    else ClassName(base.pkg, [], base.simple + BuilderSuffix)
  }

  /** A builder is top-level, lives in the package of its class, and its name is
      the class's simple names run together followed by `Builder`. */
  lemma BuilderClassNameShape(base: ClassName)
    ensures BuilderClassName(base).outer == [] && BuilderClassName(base).pkg == base.pkg
    ensures EndsWith(BuilderClassName(base).simple, BuilderSuffix)
    ensures var s := BuilderClassName(base).simple;
            s[..|s| - |BuilderSuffix|] == (if base.outer == [] then base.simple else base.outer[0] + base.simple)
  {
    var stem := if base.outer == [] then base.simple else base.outer[0] + base.simple;
    AppendedSuffix(stem, BuilderSuffix);
  }

  /** Distinct top-level classes get distinct builders. */
  lemma BuilderClassNameInjective(a: ClassName, b: ClassName)
    requires a.outer == [] && b.outer == []
    requires BuilderClassName(a) == BuilderClassName(b)
    ensures a == b
  {
    BuilderClassNameShape(a);
    BuilderClassNameShape(b);
  }

  /** The restriction to top-level classes above is needed: a class `Inner`
      nested in `Outer` and a top-level `OuterInner` of the same package get
      the same builder, `OuterInnerBuilder`. */
  lemma BuilderClassNameCollision()
    ensures BuilderClassName(ClassName("shapes", ["Outer"], "Inner"))
            == BuilderClassName(ClassName("shapes", [], "OuterInner"))
            == ClassName("shapes", [], "OuterInnerBuilder")
  {
    assert ClassName("shapes", ["Outer"], "Inner").TopLevel() == ClassName("shapes", [], "Outer");
    assert "Outer" + "Inner" + BuilderSuffix == "OuterInner" + BuilderSuffix == "OuterInnerBuilder";
  }

  /** The package of a multi-item builder: a `kotlin` package (the package
      `kotlin` itself or one below it) is moved under
      `com.nicholasnassar.dslbuilder.kotlin`, since no code may be generated
      into a `kotlin` package; any other package is kept. */
  function MultiBuilderPackage(pkg: string): string
  {
    if pkg == KotlinPackage || StartsWith(pkg, KotlinPackage + ".")
    then ReplaceFirst(pkg, KotlinPackage, RelocatedKotlinPackage)
    else pkg
  }

  /** The shared builder class that adds items of class `c` to a collection. */
  function MultiBuilderName(c: ClassName): ClassName
  {
    ClassName(MultiBuilderPackage(c.pkg), [], c.simple + MultiBuilderSuffix)
  }

  /** The multi-item builder of `c` is top-level, named `<simple>sBuilder`, in
      `c`'s package with its leading `kotlin` relocated when it is a `kotlin`
      package, and in `c`'s own package otherwise. */
  lemma {:induction false} MultiBuilderNameShape(c: ClassName)
    ensures var r := MultiBuilderName(c);
            r.outer == [] && r.simple == c.simple + MultiBuilderSuffix
    ensures var r := MultiBuilderName(c);
            if c.pkg == KotlinPackage || StartsWith(c.pkg, KotlinPackage + ".")
            then r.pkg == RelocatedKotlinPackage + c.pkg[|KotlinPackage|..]
            else r.pkg == c.pkg
  {
    if c.pkg == KotlinPackage || StartsWith(c.pkg, KotlinPackage + ".") {
      KotlinPackageSplit(c.pkg);
    }
  }

  /** A `kotlin` package is `kotlin` followed by the rest of its name. */
  lemma KotlinPackageSplit(pkg: string)
    requires pkg == KotlinPackage || StartsWith(pkg, KotlinPackage + ".")
    ensures |KotlinPackage| <= |pkg| && pkg[..|KotlinPackage|] == KotlinPackage
    ensures pkg == KotlinPackage + pkg[|KotlinPackage|..]
  {
    if pkg != KotlinPackage {
      assert pkg[..|KotlinPackage|] == (KotlinPackage + ".")[..|KotlinPackage|];
    }
    assert pkg == pkg[..|KotlinPackage|] + pkg[|KotlinPackage|..];
  }

  /** Distinct top-level element classes get distinct multi-item builders, as
      long as no user package already lies under the relocation target. */
  lemma MultiBuilderNameInjective(a: ClassName, b: ClassName)
    requires a.outer == [] && b.outer == []
    requires !StartsWith(a.pkg, RelocatedKotlinPackage) && !StartsWith(b.pkg, RelocatedKotlinPackage)
    requires MultiBuilderName(a) == MultiBuilderName(b)
    ensures a == b
  {
    MultiBuilderNameShape(a);
    MultiBuilderNameShape(b);
    AppendedSuffix(a.simple, MultiBuilderSuffix);
    AppendedSuffix(b.simple, MultiBuilderSuffix);
    var ka := a.pkg == KotlinPackage || StartsWith(a.pkg, KotlinPackage + ".");
    var kb := b.pkg == KotlinPackage || StartsWith(b.pkg, KotlinPackage + ".");
    var r := MultiBuilderName(a).pkg;
    if ka && kb {
      KotlinPackageSplit(a.pkg);
      KotlinPackageSplit(b.pkg);
      assert a.pkg[|KotlinPackage|..] == r[|RelocatedKotlinPackage|..] == b.pkg[|KotlinPackage|..];
    }
  }

  /** The name of the builder function that configures subtype `subtypeSimple`
      for parameter `parameterName`: the decapitalised subtype name, followed by
      the capitalised parameter name unless it already ends with it. */
  function SubtypeFunctionName(subtypeSimple: string, parameterName: string): string
  {
    var functionName := Decapitalize(subtypeSimple);
    var fixedParameterName := Capitalize(parameterName);
    if EndsWith(functionName, fixedParameterName) then functionName
    else functionName + fixedParameterName
  }

  /** The function name always ends with the capitalised parameter name and
      starts with the decapitalised subtype name; the parameter name is
      appended exactly when that suffix is missing. */
  lemma SubtypeFunctionNameSpec(subtypeSimple: string, parameterName: string)
    ensures var r := SubtypeFunctionName(subtypeSimple, parameterName);
            EndsWith(r, Capitalize(parameterName)) && StartsWith(r, Decapitalize(subtypeSimple))
    ensures !EndsWith(Decapitalize(subtypeSimple), Capitalize(parameterName))
            ==> SubtypeFunctionName(subtypeSimple, parameterName) == Decapitalize(subtypeSimple) + Capitalize(parameterName)
    ensures EndsWith(Decapitalize(subtypeSimple), Capitalize(parameterName))
            <==> SubtypeFunctionName(subtypeSimple, parameterName) == Decapitalize(subtypeSimple)
  {
    var f := Decapitalize(subtypeSimple);
    var p := Capitalize(parameterName);
    AppendedSuffix(f, p);
  }

  /** The rule does not guarantee unique names: for parameter `shape`, the
      subtypes `Red` and `RedShape` both get the function `redShape`. */
  lemma SubtypeFunctionNameCollision()
    ensures SubtypeFunctionName("Red", "shape") == SubtypeFunctionName("RedShape", "shape") == "redShape"
  {
    assert Decapitalize("Red") == "red";
    assert Decapitalize("RedShape") == "redShape";
    assert Capitalize("shape") == "Shape";
    assert "redShape"[|"redShape"| - |"Shape"|..] == "Shape";
  }

  /** The plain property of a dynamic-value parameter: its name without the
      `DynamicValue` suffix. */
  function StaticPropertyName(parameterName: string): (r: string)
    requires EndsWith(parameterName, DynamicValueSuffix)
    ensures r + DynamicValueSuffix == parameterName
  {
    parameterName[..|parameterName| - |DynamicValueSuffix|]
  }

  /** The function that installs a rolling dynamic value. */
  function RollingFunctionName(staticPropertyName: string): (r: string)
    ensures StartsWith(r, RollingPrefix)
    ensures r[|RollingPrefix|..] == Capitalize(staticPropertyName)
  {
    RollingPrefix + Capitalize(staticPropertyName)
  }
}
