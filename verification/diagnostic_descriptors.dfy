/**
 * The closed catalogue of diagnostics reported by the shader source
 * generators: 41 descriptors, `CMPS0001` to `CMPS0041`, each with a title, a
 * message template, a category, a default severity and an enabled flag.
 */
module DiagnosticDescriptors {
  import opened Wrappers
  import opened MessageTemplates

  /** The 41 descriptors, in declaration order. */
  datatype DescriptorName =
    | InvalidShaderField
    | InvalidGroupSharedFieldType
    | InvalidGroupSharedFieldElementType
    | InvalidGroupSharedFieldDeclaration
    | MissingShaderResources
    | InvalidThreadIdsUsage
    | InvalidGroupIdsUsage
    | InvalidGroupSizeUsage
    | InvalidWarpIdsUsage
    | InvalidObjectCreationExpression
    | AnonymousObjectCreationExpression
    | AsyncModifierOnMethodOrFunction
    | AwaitExpression
    | CheckedExpression
    | CheckedStatement
    | FixedStatement
    | ForEachStatement
    | LockStatement
    | QueryExpression
    | RangeExpression
    | RecursivePattern
    | RefType
    | RelationalPattern
    | SizeOfExpression
    | StackAllocArrayCreationExpression
    | ThrowExpressionOrStatement
    | TryStatement
    | TupleType
    | UsingStatementOrDeclaration
    | YieldStatement
    | InvalidObjectDeclaration
    | PointerType
    | FunctionPointer
    | UnsafeStatement
    | UnsafeModifierOnMethodOrFunction
    | StringLiteralExpression
    | AutoConstructorGeneratorError
    | IComputeShaderDataLoaderGeneratorError
    | IComputeShaderHashCodeGeneratorError
    | IComputeShaderSourceGeneratorError
    | ShaderMethodSourceGeneratorError

  datatype Severity = Error | Warning

  /** The descriptor category: the shader interface, or the generator reporting an internal error. */
  datatype Category = ComputeShaderCategory | GeneratorCategory(generator: string)

  datatype DiagnosticDescriptor = DiagnosticDescriptor(
    id: string,
    title: string,
    messageFormat: Template,
    category: Category,
    defaultSeverity: Severity,
    isEnabledByDefault: bool)

  const AutoConstructorGeneratorName: string := "AutoConstructorGenerator"
  const DataLoaderGeneratorName: string := "IComputeShaderDataLoaderGenerator"
  const HashCodeGeneratorName: string := "IComputeShaderHashCodeGenerator"
  const SourceGeneratorName: string := "IComputeShaderSourceGenerator"
  const ShaderMethodGeneratorName: string := "ShaderMethodSourceGenerator"

  // Long literals below are written as concatenations of shorter pieces.

  const ShaderOfType: string := "The compute shader of type "
  const InAComputeShader: string := " in a compute shader"
  const OnlyUnmanaged: string := " (only unmanaged types" + " are supported)"
  const RuntimeCrash: string := "might result in a runtime crash"

  /** "<subject> cannot be used in a compute shader". */
  function CannotBeUsed(subject: string): Template {
    [Text(subject + " cannot be used" + InAComputeShader)]
  }

  /** "A compute shader cannot have <what>". */
  function CannotHave(what: string): Template {
    [Text("A compute shader cannot have " + what)]
  }

  /** "The <typeName> type can only be used within the main body of a compute shader". */
  function MainBodyOnly(typeName: string): Template {
    [Text("The " + typeName + " type can only be used " + "within the main body " + "of a compute shader")]
  }

  /** "The compute shader of type {0} contains a group shared field "{1}" <rest>". */
  function GroupSharedField(rest: Template): Template {
    [Text(ShaderOfType), Arg(0), Text(" contains a group shared field \""), Arg(1)] + rest
  }

  /** "The generator <g> failed to execute on <target> {0}, and <consequence>". */
  function GeneratorFailed(generator: string, target: string, consequence: string): Template {
    [Text("The generator " + generator + " failed to execute on " + target + " "), Arg(0), Text(", and " + consequence)]
  }

  /** The `id` of each descriptor: eight characters, "CMPS" and four decimal digits. */
  function Id(name: DescriptorName): (r: string)
    ensures |r| == 8
  {
    match name
    case InvalidShaderField =>
      "CMPS0001"
    case InvalidGroupSharedFieldType =>
      "CMPS0002"
    case InvalidGroupSharedFieldElementType =>
      "CMPS0003"
    case InvalidGroupSharedFieldDeclaration =>
      "CMPS0004"
    case MissingShaderResources =>
      "CMPS0005"
    case InvalidThreadIdsUsage =>
      "CMPS0006"
    case InvalidGroupIdsUsage =>
      "CMPS0007"
    case InvalidGroupSizeUsage =>
      "CMPS0008"
    case InvalidWarpIdsUsage =>
      "CMPS0009"
    case InvalidObjectCreationExpression =>
      "CMPS0010"
    case AnonymousObjectCreationExpression =>
      "CMPS0011"
    case AsyncModifierOnMethodOrFunction =>
      "CMPS0012"
    case AwaitExpression =>
      "CMPS0013"
    case CheckedExpression =>
      "CMPS0014"
    case CheckedStatement =>
      "CMPS0015"
    case FixedStatement =>
      "CMPS0016"
    case ForEachStatement =>
      "CMPS0017"
    case LockStatement =>
      "CMPS0018"
    case QueryExpression =>
      "CMPS0019"
    case RangeExpression =>
      "CMPS0020"
    case RecursivePattern =>
      "CMPS0021"
    case RefType =>
      "CMPS0022"
    case RelationalPattern =>
      "CMPS0023"
    case SizeOfExpression =>
      "CMPS0024"
    case StackAllocArrayCreationExpression =>
      "CMPS0025"
    case ThrowExpressionOrStatement =>
      "CMPS0026"
    case TryStatement =>
      "CMPS0027"
    case TupleType =>
      "CMPS0028"
    case UsingStatementOrDeclaration =>
      "CMPS0029"
    case YieldStatement =>
      "CMPS0030"
    case InvalidObjectDeclaration =>
      "CMPS0031"
    case PointerType =>
      "CMPS0032"
    case FunctionPointer =>
      "CMPS0033"
    case UnsafeStatement =>
      "CMPS0034"
    case UnsafeModifierOnMethodOrFunction =>
      "CMPS0035"
    case StringLiteralExpression =>
      "CMPS0036"
    case AutoConstructorGeneratorError =>
      "CMPS0037"
    case IComputeShaderDataLoaderGeneratorError =>
      "CMPS0038"
    case IComputeShaderHashCodeGeneratorError =>
      "CMPS0039"
    case IComputeShaderSourceGeneratorError =>
      "CMPS0040"
    case ShaderMethodSourceGeneratorError =>
      "CMPS0041"
  }

  /** The `title` of each descriptor. */
  function Title(name: DescriptorName): string {
    match name
    case InvalidShaderField =>
      "Invalid shader field"
    case InvalidGroupSharedFieldType =>
      "Invalid group shared field type"
    case InvalidGroupSharedFieldElementType =>
      "Invalid group shared field element type"
    case InvalidGroupSharedFieldDeclaration =>
      "Invalid group shared field declaration"
    case MissingShaderResources =>
      "Missing shader resources"
    case InvalidThreadIdsUsage =>
      "Invalid ThreadIds usage"
    case InvalidGroupIdsUsage =>
      "Invalid GroupIds usage"
    case InvalidGroupSizeUsage =>
      "Invalid GroupSize usage"
    case InvalidWarpIdsUsage =>
      "Invalid WarpIds usage"
    case InvalidObjectCreationExpression =>
      "Invalid object creation expression"
    case AnonymousObjectCreationExpression =>
      "Anonymous object creation expression"
    case AsyncModifierOnMethodOrFunction =>
      "Async modifier on method or function"
    case AwaitExpression =>
      "Await expression"
    case CheckedExpression =>
      "Checked expression"
    case CheckedStatement =>
      "Checked statement"
    case FixedStatement =>
      "Fixed statement"
    case ForEachStatement =>
      "Foreach statement"
    case LockStatement =>
      "Foreach statement"
    case QueryExpression =>
      "Foreach statement"
    case RangeExpression =>
      "Range expression"
    case RecursivePattern =>
      "Recursive pattern"
    case RefType =>
      "Ref type"
    case RelationalPattern =>
      "Relational pattern"
    case SizeOfExpression =>
      "Sizeof expression"
    case StackAllocArrayCreationExpression =>
      "Stackalloc expression"
    case ThrowExpressionOrStatement =>
      "Throw expression or statement"
    case TryStatement =>
      "Try statement"
    case TupleType =>
      "Tuple type"
    case UsingStatementOrDeclaration =>
      "Using statement or declaration"
    case YieldStatement =>
      "Yield statement"
    case InvalidObjectDeclaration =>
      "Invalid object declaration"
    case PointerType =>
      "Pointer type"
    case FunctionPointer =>
      "Function pointer type"
    case UnsafeStatement =>
      "Unsafe statement"
    case UnsafeModifierOnMethodOrFunction =>
      "Unsafe modifier on method or function"
    case StringLiteralExpression =>
      "String literal expression"
    case AutoConstructorGeneratorError =>
      "Internal error for " + AutoConstructorGeneratorName
    case IComputeShaderDataLoaderGeneratorError =>
      "Internal error for " + DataLoaderGeneratorName
    case IComputeShaderHashCodeGeneratorError =>
      "Internal error for " + HashCodeGeneratorName
    case IComputeShaderSourceGeneratorError =>
      "Internal error for " + SourceGeneratorName
    case ShaderMethodSourceGeneratorError =>
      "Internal error for " + ShaderMethodGeneratorName
  }

  /** The `messageFormat` of each descriptor, as text and argument segments. */
  function MessageTemplate(name: DescriptorName): (r: Template)
  {
    match name
    case InvalidShaderField =>
      [Text(ShaderOfType), Arg(0), Text(" contains a field \""), Arg(1), Text("\" of an invalid type "), Arg(2)]
    case InvalidGroupSharedFieldType =>
      GroupSharedField([Text("\" of an invalid type "), Arg(2), Text(" (it must be an array)")])
    case InvalidGroupSharedFieldElementType =>
      GroupSharedField([Text("\" of an invalid type "), Arg(2), Text(" (it must be a primitive" + " or unmanaged type)")])
    case InvalidGroupSharedFieldDeclaration =>
      GroupSharedField([Text("\" that is not static")])
    case MissingShaderResources =>
      [Text(ShaderOfType), Arg(0), Text(" contains no resources to work on")]
    case InvalidThreadIdsUsage =>
      MainBodyOnly("ThreadIds")
    case InvalidGroupIdsUsage =>
      MainBodyOnly("GroupIds")
    case InvalidGroupSizeUsage =>
      MainBodyOnly("GroupSize")
    case InvalidWarpIdsUsage =>
      MainBodyOnly("WarpIds")
    case InvalidObjectCreationExpression =>
      [Text("The type "), Arg(0), Text(" cannot be created" + InAComputeShader + OnlyUnmanaged)]
    case AnonymousObjectCreationExpression =>
      [Text("An anonymous object cannot be created" + InAComputeShader)]
    case AsyncModifierOnMethodOrFunction =>
      [Text("The async modifier cannot be used " + "in methods or functions used" + InAComputeShader)]
    case AwaitExpression =>
      CannotBeUsed("The await expression")
    case CheckedExpression =>
      CannotBeUsed("A checked expression")
    case CheckedStatement =>
      CannotBeUsed("A checked statement")
    case FixedStatement =>
      CannotBeUsed("A fixed statement")
    case ForEachStatement =>
      CannotBeUsed("A foreach statement")
    case LockStatement =>
      CannotBeUsed("A lock statement")
    case QueryExpression =>
      CannotBeUsed("A LINQ query expression")
    case RangeExpression =>
      CannotBeUsed("A range expression")
    case RecursivePattern =>
      CannotBeUsed("A recursive pattern")
    case RefType =>
      CannotHave("a ref type declaration")
    case RelationalPattern =>
      CannotBeUsed("A relational pattern")
    case SizeOfExpression =>
      CannotBeUsed("A sizeof expression")
    case StackAllocArrayCreationExpression =>
      CannotBeUsed("A stackalloc expression")
    case ThrowExpressionOrStatement =>
      CannotBeUsed("Throw expressions and statements")
    case TryStatement =>
      CannotBeUsed("A try statement")
    case TupleType =>
      CannotHave("a tuple type declaration")
    case UsingStatementOrDeclaration =>
      CannotBeUsed("Using statements and declarations")
    case YieldStatement =>
      CannotBeUsed("A yield statement")
    case InvalidObjectDeclaration =>
      [Text("A variable of type "), Arg(0), Text(" cannot be declared" + InAComputeShader + OnlyUnmanaged)]
    case PointerType =>
      CannotHave("a pointer type declaration")
    case FunctionPointer =>
      CannotHave("a function pointer type declaration")
    case UnsafeStatement =>
      CannotHave("an unsafe statement")
    case UnsafeModifierOnMethodOrFunction =>
      [Text("The unsafe modifier cannot be used " + "in methods or functions used" + InAComputeShader)]
    case StringLiteralExpression =>
      CannotBeUsed("String literal expressions")
    case AutoConstructorGeneratorError =>
      GeneratorFailed(AutoConstructorGeneratorName, "type", "its constructor " + "might not be available")
    case IComputeShaderDataLoaderGeneratorError =>
      GeneratorFailed(DataLoaderGeneratorName, "type", "trying to use that shader " + RuntimeCrash)
    case IComputeShaderHashCodeGeneratorError =>
      GeneratorFailed(HashCodeGeneratorName, "type", "trying to use that shader " + RuntimeCrash)
    case IComputeShaderSourceGeneratorError =>
      GeneratorFailed(SourceGeneratorName, "type", "trying to use that shader " + RuntimeCrash)
    case ShaderMethodSourceGeneratorError =>
      GeneratorFailed(ShaderMethodGeneratorName, "method", "using it in a shader " + RuntimeCrash)
  }

  /** The `category` of each descriptor. */
  function CategoryOf(name: DescriptorName): Category {
    match name
    case AutoConstructorGeneratorError => GeneratorCategory(AutoConstructorGeneratorName)
    case IComputeShaderDataLoaderGeneratorError => GeneratorCategory(DataLoaderGeneratorName)
    case IComputeShaderHashCodeGeneratorError => GeneratorCategory(HashCodeGeneratorName)
    case IComputeShaderSourceGeneratorError => GeneratorCategory(SourceGeneratorName)
    case ShaderMethodSourceGeneratorError => GeneratorCategory(ShaderMethodGeneratorName)
    case _ => ComputeShaderCategory
  }

  /** The `defaultSeverity` of each descriptor. */
  function DefaultSeverity(name: DescriptorName): Severity {
    match name
    case AutoConstructorGeneratorError | IComputeShaderDataLoaderGeneratorError
      | IComputeShaderHashCodeGeneratorError | IComputeShaderSourceGeneratorError
      | ShaderMethodSourceGeneratorError => Warning
    case _ => Error
  }

  /** The `isEnabledByDefault` flag: every declaration passes `true`. */
  function IsEnabledByDefault(name: DescriptorName): bool {
    true
  }

  /** The descriptor declared for each name, assembled from the columns above. */
  function Descriptor(name: DescriptorName): (r: DiagnosticDescriptor)
    ensures r.defaultSeverity == Warning <==> r.category.GeneratorCategory?
    ensures r.isEnabledByDefault
  {
    DiagnosticDescriptor(Id(name), Title(name), MessageTemplate(name), CategoryOf(name),
      DefaultSeverity(name), IsEnabledByDefault(name))
  }

  /** The format string of a descriptor, as composite formatting reads it. */
  function MessageFormat(name: DescriptorName): string {
    Render(MessageTemplate(name))
  }

  /** The 1-based position of a descriptor in declaration order. */
  function Ordinal(name: DescriptorName): (n: nat)
    ensures 1 <= n <= 41 && NameAt(n) == name
  {
    match name
    case InvalidShaderField => 1
    case InvalidGroupSharedFieldType => 2
    case InvalidGroupSharedFieldElementType => 3
    case InvalidGroupSharedFieldDeclaration => 4
    case MissingShaderResources => 5
    case InvalidThreadIdsUsage => 6
    case InvalidGroupIdsUsage => 7
    case InvalidGroupSizeUsage => 8
    case InvalidWarpIdsUsage => 9
    case InvalidObjectCreationExpression => 10
    case AnonymousObjectCreationExpression => 11
    case AsyncModifierOnMethodOrFunction => 12
    case AwaitExpression => 13
    case CheckedExpression => 14
    case CheckedStatement => 15
    case FixedStatement => 16
    case ForEachStatement => 17
    case LockStatement => 18
    case QueryExpression => 19
    case RangeExpression => 20
    case RecursivePattern => 21
    case RefType => 22
    case RelationalPattern => 23
    case SizeOfExpression => 24
    case StackAllocArrayCreationExpression => 25
    case ThrowExpressionOrStatement => 26
    case TryStatement => 27
    case TupleType => 28
    case UsingStatementOrDeclaration => 29
    case YieldStatement => 30
    case InvalidObjectDeclaration => 31
    case PointerType => 32
    case FunctionPointer => 33
    case UnsafeStatement => 34
    case UnsafeModifierOnMethodOrFunction => 35
    case StringLiteralExpression => 36
    case AutoConstructorGeneratorError => 37
    case IComputeShaderDataLoaderGeneratorError => 38
    case IComputeShaderHashCodeGeneratorError => 39
    case IComputeShaderSourceGeneratorError => 40
    case ShaderMethodSourceGeneratorError => 41
  }

  /** The descriptor declared at a 1-based position. */
  function NameAt(n: nat): DescriptorName
    requires 1 <= n <= 41
  {
    match n
    case 1 => InvalidShaderField
    case 2 => InvalidGroupSharedFieldType
    case 3 => InvalidGroupSharedFieldElementType
    case 4 => InvalidGroupSharedFieldDeclaration
    case 5 => MissingShaderResources
    case 6 => InvalidThreadIdsUsage
    case 7 => InvalidGroupIdsUsage
    case 8 => InvalidGroupSizeUsage
    case 9 => InvalidWarpIdsUsage
    case 10 => InvalidObjectCreationExpression
    case 11 => AnonymousObjectCreationExpression
    case 12 => AsyncModifierOnMethodOrFunction
    case 13 => AwaitExpression
    case 14 => CheckedExpression
    case 15 => CheckedStatement
    case 16 => FixedStatement
    case 17 => ForEachStatement
    case 18 => LockStatement
    case 19 => QueryExpression
    case 20 => RangeExpression
    case 21 => RecursivePattern
    case 22 => RefType
    case 23 => RelationalPattern
    case 24 => SizeOfExpression
    case 25 => StackAllocArrayCreationExpression
    case 26 => ThrowExpressionOrStatement
    case 27 => TryStatement
    case 28 => TupleType
    case 29 => UsingStatementOrDeclaration
    case 30 => YieldStatement
    case 31 => InvalidObjectDeclaration
    case 32 => PointerType
    case 33 => FunctionPointer
    case 34 => UnsafeStatement
    case 35 => UnsafeModifierOnMethodOrFunction
    case 36 => StringLiteralExpression
    case 37 => AutoConstructorGeneratorError
    case 38 => IComputeShaderDataLoaderGeneratorError
    case 39 => IComputeShaderHashCodeGeneratorError
    case 40 => IComputeShaderSourceGeneratorError
    case _ => ShaderMethodSourceGeneratorError
  }

  /** Every descriptor name, in declaration order. */
  const AllNames: seq<DescriptorName> := seq(41, i requires 0 <= i < 41 => NameAt(i + 1))

  /** Each position holds the descriptor declared there. */
  lemma OrdinalOfNameAt(n: nat)
    requires 1 <= n <= 41
    ensures Ordinal(NameAt(n)) == n
  {
  }

  /** The list of names is the declaration order: 41 names, each once, each at its ordinal. */
  lemma DeclarationOrder()
    ensures |AllNames| == 41
    ensures forall i :: 0 <= i < |AllNames| ==> Ordinal(AllNames[i]) == i + 1
    ensures forall name: DescriptorName :: name in AllNames
    ensures forall a: DescriptorName, b: DescriptorName :: Ordinal(a) == Ordinal(b) ==> a == b
  {
    forall i | 0 <= i < |AllNames|
      ensures Ordinal(AllNames[i]) == i + 1
    {
      OrdinalOfNameAt(i + 1);
    }
    forall name: DescriptorName
      ensures name in AllNames
    {
      assert AllNames[Ordinal(name) - 1] == name;
    }
  }

  /** The identifier of the n-th descriptor: "CMPS" followed by n as four digits. */
  function FormatId(n: nat): (id: string)
    requires n < 10000
    ensures |id| == 8
  {
    "CMPS" + [DigitChar(n / 10 / 10 / 10), DigitChar(n / 10 / 10 % 10), DigitChar(n / 10 % 10), DigitChar(n % 10)]
  }

  /** Reads the number back out of a "CMPSdddd" identifier. */
  function ParseId(id: string): Option<nat>
  {
    if |id| == 8 && id[0] == 'C' && id[1] == 'M' && id[2] == 'P' && id[3] == 'S'
       && IsDigit(id[4]) && IsDigit(id[5]) && IsDigit(id[6]) && IsDigit(id[7])
    then Some(1000 * DigitValue(id[4]) + 100 * DigitValue(id[5]) + 10 * DigitValue(id[6]) + DigitValue(id[7]))
    else None
  }

  /** The four decimal digits of a number below 10000 recompose it. */
  lemma DigitsRecompose(n: nat)
    requires n < 10000
    ensures n / 10 / 10 / 10 < 10
    ensures 1000 * (n / 10 / 10 / 10) + 100 * (n / 10 / 10 % 10) + 10 * (n / 10 % 10) + n % 10 == n
  {
    var q1 := n / 10;
    var q2 := q1 / 10;
    assert n == 10 * q1 + n % 10 && q1 < 1000;
    assert q1 == 10 * q2 + q1 % 10 && q2 < 100;
    assert q2 == 10 * (q2 / 10) + q2 % 10 && q2 / 10 < 10;
  }

  /** Parsing a formatted identifier gives the number back. */
  lemma ParseFormattedId(n: nat)
    requires n < 10000
    ensures ParseId(FormatId(n)) == Some(n)
  {
    var a, b, c, d := n / 10 / 10 / 10, n / 10 / 10 % 10, n / 10 % 10, n % 10;
    DigitsRecompose(n);
    var f := FormatId(n);
    assert f == "CMPS" + [DigitChar(a), DigitChar(b), DigitChar(c), DigitChar(d)];
    assert f[0] == 'C' && f[1] == 'M' && f[2] == 'P' && f[3] == 'S';
    assert f[4] == DigitChar(a) && f[5] == DigitChar(b) && f[6] == DigitChar(c) && f[7] == DigitChar(d);
    DigitRoundTrip(a);
    DigitRoundTrip(b);
    DigitRoundTrip(c);
    DigitRoundTrip(d);
  }

  /** A four-digit decimal representation is unique. */
  lemma FourDigitsUnique(a: int, b: int, c: int, d: int, a': int, b': int, c': int, d': int)
    requires 0 <= a < 10 && 0 <= b < 10 && 0 <= c < 10 && 0 <= d < 10
    requires 0 <= a' < 10 && 0 <= b' < 10 && 0 <= c' < 10 && 0 <= d' < 10
    requires 1000 * a + 100 * b + 10 * c + d == 1000 * a' + 100 * b' + 10 * c' + d'
    ensures a == a' && b == b' && c == c' && d == d'
  {
    assert d == d' by {
      assert (1000 * a + 100 * b + 10 * c + d) % 10 == d;
      assert (1000 * a' + 100 * b' + 10 * c' + d') % 10 == d';
    }
    assert 100 * a + 10 * b + c == 100 * a' + 10 * b' + c';
    assert c == c' by {
      assert (100 * a + 10 * b + c) % 10 == c;
      assert (100 * a' + 10 * b' + c') % 10 == c';
    }
    assert 10 * a + b == 10 * a' + b';
  }

  /** Two identifiers that parse to the same number have the same digits. */
  lemma DigitsDetermineNumber(x: string, y: string)
    requires ParseId(x).Some? && ParseId(y) == ParseId(x)
    ensures forall i :: 4 <= i < 8 ==> x[i] == y[i]
  {
    FourDigitsUnique(DigitValue(x[4]), DigitValue(x[5]), DigitValue(x[6]), DigitValue(x[7]),
                     DigitValue(y[4]), DigitValue(y[5]), DigitValue(y[6]), DigitValue(y[7]));
  }

  /** An identifier that parses to n is the formatted identifier of n. */
  lemma ParsedIdIsFormatted(n: nat, id: string)
    requires n < 10000
    requires ParseId(id) == Some(n)
    ensures FormatId(n) == id
  {
    ParseFormattedId(n);
    var f := FormatId(n);
    DigitsDetermineNumber(f, id);
    assert f[..4] == id[..4];
    assert f == id;
  }

  /** Identifiers of descriptors 1 to 9. */
  lemma IdsOfBlock1(name: DescriptorName)
    requires Ordinal(name) <= 9
    ensures ParseId(Id(name)) == Some(Ordinal(name))
  {
    match name {
      case InvalidShaderField => assert ParseId(Id(InvalidShaderField)) == Some(1);
      case InvalidGroupSharedFieldType => assert ParseId(Id(InvalidGroupSharedFieldType)) == Some(2);
      case InvalidGroupSharedFieldElementType => assert ParseId(Id(InvalidGroupSharedFieldElementType)) == Some(3);
      case InvalidGroupSharedFieldDeclaration => assert ParseId(Id(InvalidGroupSharedFieldDeclaration)) == Some(4);
      case MissingShaderResources => assert ParseId(Id(MissingShaderResources)) == Some(5);
      case InvalidThreadIdsUsage => assert ParseId(Id(InvalidThreadIdsUsage)) == Some(6);
      case InvalidGroupIdsUsage => assert ParseId(Id(InvalidGroupIdsUsage)) == Some(7);
      case InvalidGroupSizeUsage => assert ParseId(Id(InvalidGroupSizeUsage)) == Some(8);
      case InvalidWarpIdsUsage => assert ParseId(Id(InvalidWarpIdsUsage)) == Some(9);
      case _ =>
    }
  }

  /** Identifiers of descriptors 10 to 18. */
  lemma IdsOfBlock10(name: DescriptorName)
    requires 10 <= Ordinal(name) <= 18
    ensures ParseId(Id(name)) == Some(Ordinal(name))
  {
    match name {
      case InvalidObjectCreationExpression => assert ParseId(Id(InvalidObjectCreationExpression)) == Some(10);
      case AnonymousObjectCreationExpression => assert ParseId(Id(AnonymousObjectCreationExpression)) == Some(11);
      case AsyncModifierOnMethodOrFunction => assert ParseId(Id(AsyncModifierOnMethodOrFunction)) == Some(12);
      case AwaitExpression => assert ParseId(Id(AwaitExpression)) == Some(13);
      case CheckedExpression => assert ParseId(Id(CheckedExpression)) == Some(14);
      case CheckedStatement => assert ParseId(Id(CheckedStatement)) == Some(15);
      case FixedStatement => assert ParseId(Id(FixedStatement)) == Some(16);
      case ForEachStatement => assert ParseId(Id(ForEachStatement)) == Some(17);
      case LockStatement => assert ParseId(Id(LockStatement)) == Some(18);
      case _ =>
    }
  }

  /** Identifiers of descriptors 19 to 27. */
  lemma IdsOfBlock19(name: DescriptorName)
    requires 19 <= Ordinal(name) <= 27
    ensures ParseId(Id(name)) == Some(Ordinal(name))
  {
    match name {
      case QueryExpression => assert ParseId(Id(QueryExpression)) == Some(19);
      case RangeExpression => assert ParseId(Id(RangeExpression)) == Some(20);
      case RecursivePattern => assert ParseId(Id(RecursivePattern)) == Some(21);
      case RefType => assert ParseId(Id(RefType)) == Some(22);
      case RelationalPattern => assert ParseId(Id(RelationalPattern)) == Some(23);
      case SizeOfExpression => assert ParseId(Id(SizeOfExpression)) == Some(24);
      case StackAllocArrayCreationExpression => assert ParseId(Id(StackAllocArrayCreationExpression)) == Some(25);
      case ThrowExpressionOrStatement => assert ParseId(Id(ThrowExpressionOrStatement)) == Some(26);
      case TryStatement => assert ParseId(Id(TryStatement)) == Some(27);
      case _ =>
    }
  }

  /** Identifiers of descriptors 28 to 36. */
  lemma IdsOfBlock28(name: DescriptorName)
    requires 28 <= Ordinal(name) <= 36
    ensures ParseId(Id(name)) == Some(Ordinal(name))
  {
    match name {
      case TupleType => assert ParseId(Id(TupleType)) == Some(28);
      case UsingStatementOrDeclaration => assert ParseId(Id(UsingStatementOrDeclaration)) == Some(29);
      case YieldStatement => assert ParseId(Id(YieldStatement)) == Some(30);
      case InvalidObjectDeclaration => assert ParseId(Id(InvalidObjectDeclaration)) == Some(31);
      case PointerType => assert ParseId(Id(PointerType)) == Some(32);
      case FunctionPointer => assert ParseId(Id(FunctionPointer)) == Some(33);
      case UnsafeStatement => assert ParseId(Id(UnsafeStatement)) == Some(34);
      case UnsafeModifierOnMethodOrFunction => assert ParseId(Id(UnsafeModifierOnMethodOrFunction)) == Some(35);
      case StringLiteralExpression => assert ParseId(Id(StringLiteralExpression)) == Some(36);
      case _ =>
    }
  }

  /** Identifiers of descriptors 37 to 41. */
  lemma IdsOfBlock37(name: DescriptorName)
    requires 37 <= Ordinal(name) <= 41
    ensures ParseId(Id(name)) == Some(Ordinal(name))
  {
    match name {
      case AutoConstructorGeneratorError => assert ParseId(Id(AutoConstructorGeneratorError)) == Some(37);
      case IComputeShaderDataLoaderGeneratorError => assert ParseId(Id(IComputeShaderDataLoaderGeneratorError)) == Some(38);
      case IComputeShaderHashCodeGeneratorError => assert ParseId(Id(IComputeShaderHashCodeGeneratorError)) == Some(39);
      case IComputeShaderSourceGeneratorError => assert ParseId(Id(IComputeShaderSourceGeneratorError)) == Some(40);
      case ShaderMethodSourceGeneratorError => assert ParseId(Id(ShaderMethodSourceGeneratorError)) == Some(41);
      case _ =>
    }
  }

  /** Identifiers are CMPS0001 to CMPS0041, consecutive in declaration order. */
  lemma IdsAreConsecutive(name: DescriptorName)
    ensures ParseId(Id(name)) == Some(Ordinal(name))
    ensures Id(name) == FormatId(Ordinal(name))
  {
    if Ordinal(name) <= 9 {
      IdsOfBlock1(name);
    } else if Ordinal(name) <= 18 {
      IdsOfBlock10(name);
    } else if Ordinal(name) <= 27 {
      IdsOfBlock19(name);
    } else if Ordinal(name) <= 36 {
      IdsOfBlock28(name);
    } else {
      IdsOfBlock37(name);
    }
    ParsedIdIsFormatted(Ordinal(name), Id(name));
  }

  /** No two descriptors share an identifier. */
  lemma IdsAreUnique(a: DescriptorName, b: DescriptorName)
    ensures Descriptor(a).id == Descriptor(b).id ==> a == b
  {
    IdsAreConsecutive(a);
    IdsAreConsecutive(b);
  }

  /** The 36 construct diagnostics are errors; the 5 internal-generator ones are warnings. */
  lemma SeveritySplit(name: DescriptorName)
    ensures Descriptor(name).defaultSeverity == Error <==> Ordinal(name) <= 36
    ensures Descriptor(name).defaultSeverity == Warning <==> Descriptor(name).category.GeneratorCategory?
  {
  }

  /**
   * The five internal-error descriptors are warnings whose title names the
   * generator of their category and whose message takes one argument.
   */
  lemma InternalErrorsNameTheirGenerator(name: DescriptorName)
    requires Descriptor(name).category.GeneratorCategory?
    ensures Descriptor(name).title == "Internal error for " + Descriptor(name).category.generator
    ensures Descriptor(name).defaultSeverity == Warning
    ensures Arity(name) == 1
  {
  }

  /** Every descriptor is enabled by default. */
  lemma AllEnabledByDefault(name: DescriptorName)
    ensures Descriptor(name).isEnabledByDefault
  {
  }

  /** The placeholders `{0}`, ..., `{n-1}`, in order. */
  function FirstIndices(n: nat): (r: seq<nat>)
    ensures |r| == n && forall i :: 0 <= i < n ==> r[i] == i
  {
    if n == 0 then [] else FirstIndices(n - 1) + [n - 1]
  }

  /** How many arguments each template takes. */
  function Arity(name: DescriptorName): nat {
    match name
    case InvalidShaderField | InvalidGroupSharedFieldType | InvalidGroupSharedFieldElementType => 3
    case InvalidGroupSharedFieldDeclaration => 2
    case MissingShaderResources | InvalidObjectCreationExpression | InvalidObjectDeclaration => 1
    case AutoConstructorGeneratorError | IComputeShaderDataLoaderGeneratorError
      | IComputeShaderHashCodeGeneratorError | IComputeShaderSourceGeneratorError
      | ShaderMethodSourceGeneratorError => 1
    case _ => 0
  }

  /** Template arguments of descriptors 1 and 2. */
  lemma ArgumentsOfBlock1(name: DescriptorName)
    requires Ordinal(name) <= 2
    ensures ArgIndices(MessageTemplate(name)) == FirstIndices(Arity(name))
  {
    match name {
      case InvalidShaderField => assert ArgIndices(MessageTemplate(InvalidShaderField)) == [0, 1, 2];
      case InvalidGroupSharedFieldType => assert ArgIndices(MessageTemplate(InvalidGroupSharedFieldType)) == [0, 1, 2];
      case _ =>
    }
  }

  /** Template arguments of descriptors 3 and 4. */
  lemma ArgumentsOfBlock3(name: DescriptorName)
    requires 3 <= Ordinal(name) <= 4
    ensures ArgIndices(MessageTemplate(name)) == FirstIndices(Arity(name))
  {
    match name {
      case InvalidGroupSharedFieldElementType => assert ArgIndices(MessageTemplate(InvalidGroupSharedFieldElementType)) == [0, 1, 2];
      case InvalidGroupSharedFieldDeclaration => assert ArgIndices(MessageTemplate(InvalidGroupSharedFieldDeclaration)) == [0, 1];
      case _ =>
    }
  }

  /** Template arguments of descriptors 5 to 9. */
  lemma ArgumentsOfBlock5(name: DescriptorName)
    requires 5 <= Ordinal(name) <= 9
    ensures ArgIndices(MessageTemplate(name)) == FirstIndices(Arity(name))
  {
    match name {
      case MissingShaderResources => assert ArgIndices(MessageTemplate(MissingShaderResources)) == [0];
      case InvalidThreadIdsUsage => assert ArgIndices(MessageTemplate(InvalidThreadIdsUsage)) == [];
      case InvalidGroupIdsUsage => assert ArgIndices(MessageTemplate(InvalidGroupIdsUsage)) == [];
      case InvalidGroupSizeUsage => assert ArgIndices(MessageTemplate(InvalidGroupSizeUsage)) == [];
      case InvalidWarpIdsUsage => assert ArgIndices(MessageTemplate(InvalidWarpIdsUsage)) == [];
      case _ =>
    }
  }

  /** Template arguments of descriptors 10 to 18. */
  lemma ArgumentsOfBlock10(name: DescriptorName)
    requires 10 <= Ordinal(name) <= 18
    ensures ArgIndices(MessageTemplate(name)) == FirstIndices(Arity(name))
  {
    match name {
      case InvalidObjectCreationExpression => assert ArgIndices(MessageTemplate(InvalidObjectCreationExpression)) == [0];
      case AnonymousObjectCreationExpression => assert ArgIndices(MessageTemplate(AnonymousObjectCreationExpression)) == [];
      case AsyncModifierOnMethodOrFunction => assert ArgIndices(MessageTemplate(AsyncModifierOnMethodOrFunction)) == [];
      case AwaitExpression => assert ArgIndices(MessageTemplate(AwaitExpression)) == [];
      case CheckedExpression => assert ArgIndices(MessageTemplate(CheckedExpression)) == [];
      case CheckedStatement => assert ArgIndices(MessageTemplate(CheckedStatement)) == [];
      case FixedStatement => assert ArgIndices(MessageTemplate(FixedStatement)) == [];
      case ForEachStatement => assert ArgIndices(MessageTemplate(ForEachStatement)) == [];
      case LockStatement => assert ArgIndices(MessageTemplate(LockStatement)) == [];
      case _ =>
    }
  }

  /** Template arguments of descriptors 19 to 27. */
  lemma ArgumentsOfBlock19(name: DescriptorName)
    requires 19 <= Ordinal(name) <= 27
    ensures ArgIndices(MessageTemplate(name)) == FirstIndices(Arity(name))
  {
    match name {
      case QueryExpression => assert ArgIndices(MessageTemplate(QueryExpression)) == [];
      case RangeExpression => assert ArgIndices(MessageTemplate(RangeExpression)) == [];
      case RecursivePattern => assert ArgIndices(MessageTemplate(RecursivePattern)) == [];
      case RefType => assert ArgIndices(MessageTemplate(RefType)) == [];
      case RelationalPattern => assert ArgIndices(MessageTemplate(RelationalPattern)) == [];
      case SizeOfExpression => assert ArgIndices(MessageTemplate(SizeOfExpression)) == [];
      case StackAllocArrayCreationExpression => assert ArgIndices(MessageTemplate(StackAllocArrayCreationExpression)) == [];
      case ThrowExpressionOrStatement => assert ArgIndices(MessageTemplate(ThrowExpressionOrStatement)) == [];
      case TryStatement => assert ArgIndices(MessageTemplate(TryStatement)) == [];
      case _ =>
    }
  }

  /** Template arguments of descriptors 28 to 36. */
  lemma ArgumentsOfBlock28(name: DescriptorName)
    requires 28 <= Ordinal(name) <= 36
    ensures ArgIndices(MessageTemplate(name)) == FirstIndices(Arity(name))
  {
    match name {
      case TupleType => assert ArgIndices(MessageTemplate(TupleType)) == [];
      case UsingStatementOrDeclaration => assert ArgIndices(MessageTemplate(UsingStatementOrDeclaration)) == [];
      case YieldStatement => assert ArgIndices(MessageTemplate(YieldStatement)) == [];
      case InvalidObjectDeclaration => assert ArgIndices(MessageTemplate(InvalidObjectDeclaration)) == [0];
      case PointerType => assert ArgIndices(MessageTemplate(PointerType)) == [];
      case FunctionPointer => assert ArgIndices(MessageTemplate(FunctionPointer)) == [];
      case UnsafeStatement => assert ArgIndices(MessageTemplate(UnsafeStatement)) == [];
      case UnsafeModifierOnMethodOrFunction => assert ArgIndices(MessageTemplate(UnsafeModifierOnMethodOrFunction)) == [];
      case StringLiteralExpression => assert ArgIndices(MessageTemplate(StringLiteralExpression)) == [];
      case _ =>
    }
  }

  /** Template arguments of descriptors 37 to 41. */
  lemma ArgumentsOfBlock37(name: DescriptorName)
    requires 37 <= Ordinal(name) <= 41
    ensures ArgIndices(MessageTemplate(name)) == FirstIndices(Arity(name))
  {
    match name {
      case AutoConstructorGeneratorError => assert ArgIndices(MessageTemplate(AutoConstructorGeneratorError)) == [0];
      case IComputeShaderDataLoaderGeneratorError => assert ArgIndices(MessageTemplate(IComputeShaderDataLoaderGeneratorError)) == [0];
      case IComputeShaderHashCodeGeneratorError => assert ArgIndices(MessageTemplate(IComputeShaderHashCodeGeneratorError)) == [0];
      case IComputeShaderSourceGeneratorError => assert ArgIndices(MessageTemplate(IComputeShaderSourceGeneratorError)) == [0];
      case ShaderMethodSourceGeneratorError => assert ArgIndices(MessageTemplate(ShaderMethodSourceGeneratorError)) == [0];
      case _ =>
    }
  }

  /** Each template's arguments are `{0}` to `{Arity - 1}`, in order. */
  lemma ArgumentsMatchArity(name: DescriptorName)
    ensures ArgIndices(MessageTemplate(name)) == FirstIndices(Arity(name))
  {
    if Ordinal(name) <= 2 {
      ArgumentsOfBlock1(name);
    } else if Ordinal(name) <= 4 {
      ArgumentsOfBlock3(name);
    } else if Ordinal(name) <= 9 {
      ArgumentsOfBlock5(name);
    } else if Ordinal(name) <= 18 {
      ArgumentsOfBlock10(name);
    } else if Ordinal(name) <= 27 {
      ArgumentsOfBlock19(name);
    } else if Ordinal(name) <= 36 {
      ArgumentsOfBlock28(name);
    } else {
      ArgumentsOfBlock37(name);
    }
  }

  /**
   * Each format string holds exactly the placeholders `{0}` to `{Arity - 1}`,
   * each once and in order.
   */
  lemma PlaceholderCounts(name: DescriptorName)
    ensures Placeholders(MessageFormat(name)) == FirstIndices(Arity(name))
    ensures PlaceholderCount(MessageFormat(name)) == Arity(name)
  {
    PlaceholdersOfRender(MessageTemplate(name));
    ArgumentsMatchArity(name);
  }

  /**
   * The four usage templates take no argument, although their documentation
   * describes a method and a type argument.
   */
  lemma UsageTemplatesTakeNoArguments(name: DescriptorName)
    requires name.InvalidThreadIdsUsage? || name.InvalidGroupIdsUsage?
          || name.InvalidGroupSizeUsage? || name.InvalidWarpIdsUsage?
    ensures PlaceholderCount(MessageFormat(name)) == 0
  {
    PlaceholderCounts(name);
  }

  /** Titles are not unique: three distinct descriptors share "Foreach statement". */
  lemma TitlesAreNotUnique()
    ensures Descriptor(ForEachStatement).title == "Foreach statement"
    ensures Descriptor(LockStatement).title == Descriptor(ForEachStatement).title
    ensures Descriptor(QueryExpression).title == Descriptor(ForEachStatement).title
    ensures Descriptor(ForEachStatement).id != Descriptor(LockStatement).id
    ensures Descriptor(LockStatement).id != Descriptor(QueryExpression).id
  {
  }
}
