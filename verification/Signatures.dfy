/** How the skeleton pruners read one line outside a body. */
module Signatures {
  import opened Text
  import opened Languages

  /** A line that starts a body, a C# expression body, or anything else. */
  datatype Class = Opener | Arrow | Plain

  /** A language pruned by its braces. */
  predicate Braced(lang: Language) {
    lang in {Rust, TypeScript, Go, CSharp, Php, Cpp}
  }

  predicate ContainsAny(s: string, ps: seq<string>) {
    exists i :: 0 <= i < |ps| && Contains(s, ps[i])
  }

  predicate Terminated(t: string) {
    EndsWith(t, ";")
  }

  predicate RustStart(t: string) {
    StartsWithAny(t, ["fn ", "pub fn ", "pub async fn ", "async fn ", "pub(crate) fn ", "pub const fn "]) && !Terminated(t)
  }

  predicate TypeScriptStart(t: string) {
    && (|| StartsWithAny(t, ["function ", "export function ", "export async function ", "async function "])
        || (Contains(t, ") {") && !StartsWithAny(t, ["if", "while", "for"])))
    && !Terminated(t)
  }

  predicate GoStart(t: string) {
    StartsWith(t, "func ") && !Terminated(t)
  }

  predicate PhpStart(t: string) {
    (Contains(t, "function ") || StartsWith(t, "function(")) && !StartsWith(t, "abstract ") && !Terminated(t)
  }

  /** An auto property, a type declaration or control flow is never a method. */
  predicate CSharpOther(t: string) {
    || ContainsAny(t, ["{ get;", "{ get }", "{ set;", "{ init;"])
    || StartsWithAny(t, ["namespace ", "class ", "interface ", "struct ", "record ", "enum "])
    || ContainsAny(t, [" class ", " interface ", " struct ", " record ", " enum "])
    || StartsWithAny(t, ["if ", "if(", "for ", "for(", "foreach ", "foreach(", "while ", "while(", "switch ", "switch("])
    || StartsWithAny(t, ["catch ", "catch(", "using ", "using(", "lock ", "lock("])
  }

  predicate CSharpArrow(t: string) {
    !CSharpOther(t) && Contains(t, "=>") && Terminated(t) && '(' in t
  }

  predicate CSharpStart(t: string) {
    !CSharpOther(t) && !Terminated(t) && '(' in t && ')' in t
  }

  predicate CppOther(t: string) {
    || StartsWithAny(t, ["#", "namespace ", "class ", "struct ", "enum ", "union ", "template", "typedef ", "using ", "extern "])
    || ContainsAny(t, [" class ", " struct ", " enum "])
    || StartsWithAny(t, ["if ", "if(", "for ", "for(", "while ", "while(", "switch ", "switch(", "catch ", "catch("])
  }

  predicate CppStart(t: string) {
    !CppOther(t) && !Terminated(t) && '(' in t && (')' in t || EndsWith(t, "{"))
  }

  function RustClass(line: string): Class {
    if RustStart(Trim(line)) then Opener else Plain
  }

  function TypeScriptClass(line: string): Class {
    if TypeScriptStart(Trim(line)) then Opener else Plain
  }

  function GoClass(line: string): Class {
    if GoStart(Trim(line)) then Opener else Plain
  }

  function CSharpClass(line: string): Class {
    if CSharpArrow(Trim(line)) then Arrow else if CSharpStart(Trim(line)) then Opener else Plain
  }

  function PhpClass(line: string): Class {
    if PhpStart(Trim(line)) then Opener else Plain
  }

  function CppClass(line: string): Class {
    if CppStart(Trim(line)) then Opener else Plain
  }

  /** A pruner: how it reads a line outside a body, and whether a signature without its brace
      waits for it or is taken to be in the body at once. A body becomes the stub, an
      expression body the arrow. */
  datatype Pruner = Pruner(classify: string -> Class, waits: bool, stub: string, arrow: string)

  const STUB := "{ /* ... */ }"
  const ARROW_STUB := " => default!;"

  function PrunerOf(lang: Language): Pruner
    requires Braced(lang)
  {
    match lang
    case Rust => Pruner(RustClass, false, STUB, ARROW_STUB)
    case TypeScript => Pruner(TypeScriptClass, false, STUB, ARROW_STUB)
    case Go => Pruner(GoClass, false, STUB, ARROW_STUB)
    case CSharp => Pruner(CSharpClass, true, STUB, ARROW_STUB)
    case Php => Pruner(PhpClass, true, STUB, ARROW_STUB)
    case Cpp => Pruner(CppClass, true, STUB, ARROW_STUB)
  }

  // ---------------------------------------------- what the end of a line decides

  lemma TrimLast(line: string)
    requires line != [] && !Whitespace(line[|line| - 1])
    ensures Trim(line) != [] && Trim(line)[|Trim(line)| - 1] == line[|line| - 1]
  {
    TrimmedBlank(line);
  }

  lemma TerminatedIff(t: string)
    requires t != []
    ensures Terminated(t) <==> t[|t| - 1] == ';'
  {
    assert t[|t| - 1..] == [t[|t| - 1]];
  }

  /** A line that ends in a semicolon opens nothing; one that ends otherwise is no expression body. */
  ghost predicate EndAgrees(line: string, c: Class) {
    line != [] && !Whitespace(line[|line| - 1]) ==>
      (line[|line| - 1] == ';' ==> c != Opener) && (line[|line| - 1] != ';' ==> c != Arrow)
  }

  /** Braces around text without braces. */
  ghost predicate IsStub(s: string) {
    && |s| >= 2 && s[0] == '{' && s[|s| - 1] == '}'
    && forall i :: 1 <= i < |s| - 1 ==> s[i] != '{' && s[i] != '}'
  }

  /** An arrow after a space, without braces, that ends the statement. */
  ghost predicate IsArrow(s: string) {
    && |s| > 3 && s[0] == ' ' && s[1] == '=' && s[2] == '>' && s[|s| - 1] == ';'
    && forall i :: 0 <= i < |s| ==> s[i] != '{' && s[i] != '}'
  }

  ghost predicate Legible(p: Pruner) {
    IsStub(p.stub) && IsArrow(p.arrow) && forall line :: EndAgrees(line, p.classify(line))
  }

  lemma EndDecides(line: string, c: Class)
    requires (c == Opener ==> !Terminated(Trim(line))) && (c == Arrow ==> Terminated(Trim(line)))
    ensures EndAgrees(line, c)
  {
    if line != [] && !Whitespace(line[|line| - 1]) {
      TrimLast(line);
      TerminatedIff(Trim(line));
    }
  }

  lemma DropLegible(line: string)
    ensures EndAgrees(line, RustClass(line)) && EndAgrees(line, TypeScriptClass(line)) && EndAgrees(line, GoClass(line))
  {
    EndDecides(line, RustClass(line));
    EndDecides(line, TypeScriptClass(line));
    EndDecides(line, GoClass(line));
  }

  lemma CSharpLegible(line: string)
    ensures EndAgrees(line, CSharpClass(line))
  {
    EndDecides(line, CSharpClass(line));
  }

  lemma WaitLegible(line: string)
    ensures EndAgrees(line, PhpClass(line)) && EndAgrees(line, CppClass(line))
  {
    EndDecides(line, PhpClass(line));
    EndDecides(line, CppClass(line));
  }

  lemma StubIs()
    ensures IsStub(STUB)
  {
  }

  lemma ArrowIs()
    ensures IsArrow(ARROW_STUB)
  {
  }

  lemma AllLegible(lang: Language)
    requires Braced(lang)
    ensures Legible(PrunerOf(lang))
  {
    StubIs();
    ArrowIs();
    forall line
      ensures EndAgrees(line, PrunerOf(lang).classify(line))
    {
      DropLegible(line);
      CSharpLegible(line);
      WaitLegible(line);
    }
  }
}
