/**
 * The language registry: per language id, the file extensions it judges, the
 * argument vectors that build and run a submission, and the grammar of its
 * string literals and comments. Grammar patterns are regular-expression source
 * text, carried as opaque data.
 */
module Languages {
  import opened Wrappers
  import opened Strings

  datatype LanguageId =
    | C | Cpp | CSharp | Dart | Java | JavaScript | Haskell | Php | Python
    | Ruby | Rust | Zig | TypeScript | Text | Html | Css | Jsp

  /** The key of each language in `languageIdToDefinition`. */
  function IdName(l: LanguageId): string {
    match l
    case C => "c"
    case Cpp => "cpp"
    case CSharp => "csharp"
    case Dart => "dart"
    case Java => "java"
    case JavaScript => "javascript"
    case Haskell => "haskell"
    case Php => "php"
    case Python => "python"
    case Ruby => "ruby"
    case Rust => "rust"
    case Zig => "zig"
    case TypeScript => "typescript"
    case Text => "text"
    case Html => "html"
    case Css => "css"
    case Jsp => "jsp"
  }

  /** `languageIdToDefinition[id]`: the entry registered under `id`, if any. */
  function Lookup(id: string): (r: Option<LanguageId>)
    ensures r.Some? ==> IdName(r.value) == id
  {
    match id
    case "c" => Some(C)
    case "cpp" => Some(Cpp)
    case "csharp" => Some(CSharp)
    case "dart" => Some(Dart)
    case "java" => Some(Java)
    case "javascript" => Some(JavaScript)
    case "haskell" => Some(Haskell)
    case "php" => Some(Php)
    case "python" => Some(Python)
    case "ruby" => Some(Ruby)
    case "rust" => Some(Rust)
    case "zig" => Some(Zig)
    case "typescript" => Some(TypeScript)
    case "text" => Some(Text)
    case "html" => Some(Html)
    case "css" => Some(Css)
    case "jsp" => Some(Jsp)
    case _ => None
  }

  /** Every language is found under its own key. */
  lemma LookupIdName(l: LanguageId)
    ensures Lookup(IdName(l)) == Some(l)
  {
  }

  /** `fileExtension`, a single extension written as a one-element list. */
  function FileExtensions(l: LanguageId): seq<string> {
    match l
    case C => [".c"]
    case Cpp => [".cpp"]
    case CSharp => [".cs"]
    case Dart => [".dart"]
    case Java => [".java"]
    case JavaScript => [".js", ".cjs", ".mjs"]
    case Haskell => [".hs"]
    case Php => [".php"]
    case Python => [".py"]
    case Ruby => [".rb"]
    case Rust => [".rs"]
    case Zig => [".zig"]
    case TypeScript => [".ts", ".cts", ".mts"]
    case Text => [".txt"]
    case Html => [".html"]
    case Css => [".css"]
    case Jsp => [".jsp"]
  }

  /** `buildCommand(filePath)`, or None when the entry has no build step. */
  function BuildCommand(l: LanguageId, filePath: string): (r: Option<seq<string>>)
    ensures r.Some? ==> |r.value| > 0
  {
    match l
    case C => Some(["gcc", "--std=c17", "-O2", filePath, "-o", "main"])
    case Cpp => Some(["g++", "--std=c++20", "-O2", filePath, "-o", "main"])
    case CSharp => Some(["dotnet", "build", "Main.csproj", "--configuration", "Release", "--verbosity", "quiet"])
    case Dart => Some(["dart", "compile", "exe", filePath, "-o", "main"])
    case Java => Some(["javac", filePath])
    case Haskell => Some(["ghc", "-o", "main", filePath])
    case Ruby => Some(["ruby", "-c", filePath])
    case Rust => Some(["rustc", filePath, "-o", "main"])
    case Zig => Some(["zig", "build-exe", filePath])
    case _ => None
  }

  /** `command(filePath)`: the argument vector that runs the submission. */
  function Command(l: LanguageId, filePath: string): (r: seq<string>)
    ensures |r| > 0
  {
    match l
    case C => ["./main"]
    case Cpp => ["./main"]
    case CSharp => ["dotnet", "bin/Release/net8.0/Main.dll"]
    case Dart => ["./main"]
    case Java => ["java", "-Xmx1024m", StripSuffix(filePath, ".java")]
    case JavaScript => ["bun", filePath]
    case Haskell => ["./main"]
    case Php => ["php", filePath]
    case Python => ["python3", filePath]
    case Ruby => ["ruby", "--jit", filePath]
    case Rust => ["./main"]
    case Zig => ["./" + StripSuffix(filePath, ".zig")]
    case TypeScript => ["bun", filePath]
    case Text => ["cat", filePath]
    case Html => ["echo", ""]
    case Css => ["echo", ""]
    case Jsp => ["echo", ""]
  }

  /** One span matcher: an opening pattern and, unless the span runs to end of line, a closing one. */
  datatype Matcher = Matcher(open: string, close: Option<string>)

  datatype Grammar = Grammar(strings: seq<Matcher>, comments: seq<Matcher>)

  function Quoted(q: string): Matcher {
    Matcher(q, Some(q))
  }

  const BlockComment := Matcher("\\n?[ \\t]*\\/\\*", Some("\\*\\/"))
  const LineComment := Matcher("\\n?[ \\t]*\\/\\/", None)

  const CLikeGrammar := Grammar([Quoted("'"), Quoted("\"")], [BlockComment, LineComment])

  const JavaScriptLikeGrammar := Grammar([Quoted("'"), Quoted("\""), Quoted("`")], [BlockComment, LineComment])

  /** `grammer`, absent only for plain text. */
  function GrammarOf(l: LanguageId): Option<Grammar> {
    match l
    case C => Some(CLikeGrammar)
    case Cpp => Some(CLikeGrammar)
    case CSharp => Some(CLikeGrammar)
    case Dart => Some(CLikeGrammar)
    case Java => Some(CLikeGrammar)
    case JavaScript => Some(JavaScriptLikeGrammar)
    case Haskell =>
      Some(Grammar([Quoted("'"), Quoted("\"")],
                   [Matcher("\\n?[ \\t]*\\{-", Some("-\\}")), Matcher("\\n?[ \\t]*--", None)]))
    case Php =>
      Some(Grammar([Quoted("'"), Quoted("\"")],
                   [BlockComment, LineComment, Matcher("\\n?[ \\t]*#", None)]))
    case Python =>
      Some(Grammar([Quoted("'''"), Quoted("\"\"\""), Quoted("'"), Quoted("\"")],
                   [Matcher("\\n?[ \\t]*'''", Some("'''")), Matcher("\\n?[ \\t]*\"\"\"", Some("\"\"\"")),
                    Matcher("\\n?[ \\t]*#", None)]))
    case Ruby =>
      Some(Grammar([Quoted("'"), Quoted("\"")],
                   [Matcher("\\n?[ \\t]*=begin", Some("=end")), Matcher("\\n?[ \\t]*#", None)]))
    case Rust => Some(CLikeGrammar)
    case Zig => Some(CLikeGrammar)
    case TypeScript => Some(JavaScriptLikeGrammar)
    case Text => None
    case Html =>
      Some(Grammar([Quoted("'"), Quoted("\"")], [Matcher("\\n?[ \\t]*<!--", Some("-->"))]))
    case Css =>
      Some(Grammar([Quoted("'"), Quoted("\"")], [BlockComment]))
    case Jsp =>
      Some(Grammar([Quoted("'"), Quoted("\"")],
                   [Matcher("\\n?[ \\t]*<!--", Some("-->")), Matcher("\\n?[ \\t]*<%--", Some("--%>")),
                    BlockComment, LineComment]))
  }

  /** Java compiles the given file and runs the class named by the path without its `.java` suffix. */
  lemma JavaCommands(filePath: string)
    ensures BuildCommand(Java, filePath) == Some(["javac", filePath])
    ensures Command(Java, filePath) == ["java", "-Xmx1024m", StripSuffix(filePath, ".java")]
    ensures EndsWith(filePath, ".java") ==> Command(Java, filePath)[2] + ".java" == filePath
    ensures !EndsWith(filePath, ".java") ==> Command(Java, filePath)[2] == filePath
  {
  }

  /** Zig runs `./` followed by the path without a trailing `.zig`. */
  lemma ZigCommand(filePath: string)
    ensures Command(Zig, filePath) == ["./" + StripSuffix(filePath, ".zig")]
    ensures EndsWith(filePath, ".zig") ==> "./" + filePath == Command(Zig, filePath)[0] + ".zig"
  {
  }

  /** c, cpp, dart, haskell and rust compile `filePath` into `main` and run `./main` whatever the path. */
  lemma MainExecutableLanguages(l: LanguageId, filePath: string, otherPath: string)
    requires l in {C, Cpp, Dart, Haskell, Rust}
    ensures BuildCommand(l, filePath).Some?
    ensures filePath in BuildCommand(l, filePath).value
    ensures exists i :: 0 <= i < |BuildCommand(l, filePath).value| - 1
                        && BuildCommand(l, filePath).value[i] == "-o"
                        && BuildCommand(l, filePath).value[i + 1] == "main"
    ensures Command(l, filePath) == Command(l, otherPath) == ["./main"]
  {
    var argv := BuildCommand(l, filePath).value;
    if l == Haskell {
      assert argv[1] == "-o" && argv[2] == "main";
    } else {
      assert argv[|argv| - 2] == "-o" && argv[|argv| - 1] == "main";
    }
  }

  /** Interpreted languages have no build step and hand the file path to the interpreter last. */
  lemma InterpretedLanguages(l: LanguageId, filePath: string)
    requires l in {JavaScript, TypeScript, Python, Php, Text}
    ensures BuildCommand(l, filePath).None?
    ensures Command(l, filePath)[|Command(l, filePath)| - 1] == filePath
  {
  }

  /** javascript and typescript judge three extensions each, every other language one. */
  lemma ExtensionCounts(l: LanguageId)
    ensures l == JavaScript ==> FileExtensions(l) == [".js", ".cjs", ".mjs"]
    ensures l == TypeScript ==> FileExtensions(l) == [".ts", ".cts", ".mts"]
    ensures l != JavaScript && l != TypeScript ==> |FileExtensions(l)| == 1
  {
  }

  /** No extension belongs to two languages. */
  lemma ExtensionsAreDisjoint(l1: LanguageId, l2: LanguageId, ext: string)
    requires ext in FileExtensions(l1) && ext in FileExtensions(l2)
    ensures l1 == l2
  {
  }

  /** Every string matcher is closed; only comment matchers may run to end of line; text has no grammar. */
  lemma GrammarShapes(l: LanguageId)
    ensures GrammarOf(l).None? <==> l == Text
    ensures GrammarOf(l).Some? ==>
      forall i :: 0 <= i < |GrammarOf(l).value.strings| ==> GrammarOf(l).value.strings[i].close.Some?
  {
  }

  /** Python tries its triple-quoted strings before the single-quoted ones. */
  lemma PythonTripleQuotesFirst()
    ensures GrammarOf(Python).Some?
    ensures GrammarOf(Python).value.strings[0] == Quoted("'''")
    ensures GrammarOf(Python).value.strings[1] == Quoted("\"\"\"")
    ensures GrammarOf(Python).value.strings[2..] == [Quoted("'"), Quoted("\"")]
  {
  }
}
