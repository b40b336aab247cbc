/**
 * The deterministic parts of tools.py: the catalog that is offered to the
 * language model, the clean-up of a generated program's text, and the
 * result contract of program execution. Language-model calls, the web
 * search and file I/O are external and are not modelled here.
 */
module Tools {
  import opened Wrappers
  import opened PyText

  /** What calling a tool does, seen from its caller: a returned text, or an exception that escapes. */
  datatype ToolOutcome = Returned(text: string) | Raised(error: string)

  // ---------------------------------------------------------------------
  // The tool catalog (get_tools_list)
  // ---------------------------------------------------------------------

  datatype Property = Property(name: string, kind: string, description: string)
  datatype Parameters = Parameters(kind: string, properties: seq<Property>, required: seq<string>)
  datatype FunctionDecl = FunctionDecl(name: string, description: string, parameters: Parameters)
  datatype ToolEntry = ToolEntry(kind: string, func: FunctionDecl)

  /** The docstrings of the five tool functions, in the order the catalog reads them. */
  datatype Docstrings = Docstrings(
    extractEntities: string,
    internetSearch: string,
    generateProgram: string,
    executeProgram: string,
    writeFile: string)

  /** The i-th entry of the catalog's list of docstrings. */
  function DocAt(docs: Docstrings, i: nat): string
    requires i < 5
  {
    match i
    case 0 => docs.extractEntities
    case 1 => docs.internetSearch
    case 2 => docs.generateProgram
    case 3 => docs.executeProgram
    case _ => docs.writeFile
  }

  const ExecuteToolName := "execute_Python_program"

  function StringProperty(name: string, description: string): Property
  {
    Property(name, "string", description)
  }

  function Entry(name: string, description: string, properties: seq<Property>, required: seq<string>): ToolEntry
  {
    ToolEntry("function", FunctionDecl(name, description, Parameters("object", properties, required)))
  }

  // The parameter descriptions of the catalog, named so that proofs about the catalog's
  // structure need not look inside them.
  const FileNameText := "The name of the file to extract entities from."
  const EntityTypeText := "The entity type, e.g. city, hobby, name etc..."
  const EntityText := "The entity to search for."
  const AttributeText := "The attribute of the entity to search for."
  const QueryDescriptionText := "Description of the analysis query to be performed on the file."
  const InputFileText := "The CSV file to analyze."
  const ColumnsText := "Names of the columns in the CSV file."
  const RowExampleText := "An example row from the CSV file."
  const AnalysisOutputFileText := "The file to which the program writes the output to."
  const ProgramFileText := "The Python file to execute."
  const FileContentText := "The content to be written into the file."
  const WrittenFileText := "The file to be written into."

  /** The catalog exactly as tools.py builds it, including its slips. */
  function Catalog(docs: Docstrings): (tools: seq<ToolEntry>)
    ensures |tools| == 5
  {
    [ ExtractEntitiesEntry(docs.extractEntities),
      InternetSearchEntry(docs.internetSearch),
      GenerateProgramEntry(docs.generateProgram),
      ExecuteProgramEntry(docs.executeProgram),
      WriteFileEntry(docs.writeFile) ]
  }

  function ExtractEntitiesEntry(doc: string): ToolEntry
  {
    Entry("extract_entities_from_file", doc,
      [ StringProperty("file_name", FileNameText),
        StringProperty("entity_type", EntityTypeText) ],
      ["file_name", "entity_type"])
  }

  function InternetSearchEntry(doc: string): ToolEntry
  {
    Entry("Internet_search_attribute", doc,
      [ StringProperty("entity", EntityText),
        StringProperty("attribute", AttributeText) ],
      ["entity", "attribute"])
  }

  /** The entry meant for generate_analysis_program: it carries the previous entry's name and
      requires `analysis_request` where it declares `query_description`. */
  function GenerateProgramEntry(doc: string): ToolEntry
  {
    Entry("Internet_search_attribute", doc,
      [ StringProperty("query_description", QueryDescriptionText),
        StringProperty("input_file", InputFileText),
        StringProperty("columns", ColumnsText),
        StringProperty("row_example", RowExampleText),
        StringProperty("output_file", AnalysisOutputFileText) ],
      ["analysis_request", "input_file", "columns", "row_example", "output_file"])
  }

  function ExecuteProgramEntry(doc: string): ToolEntry
  {
    Entry(ExecuteToolName, doc,
      [ StringProperty("program_file", ProgramFileText) ],
      ["program_file"])
  }

  /** The entry for write_file: its required list is copied from the search entry. */
  function WriteFileEntry(doc: string): ToolEntry
  {
    Entry("write_file", doc,
      [ StringProperty("file_content", FileContentText),
        StringProperty("output_file", WrittenFileText) ],
      ["entity", "attribute"])
  }

  function Names(tools: seq<ToolEntry>): (names: seq<string>)
    ensures |names| == |tools|
    ensures forall i :: 0 <= i < |tools| ==> names[i] == tools[i].func.name
  {
    seq(|tools|, i requires 0 <= i < |tools| => tools[i].func.name)
  }

  function PropertyNames(entry: ToolEntry): (names: seq<string>)
    ensures |names| == |entry.func.parameters.properties|
    ensures forall i :: 0 <= i < |names| ==> names[i] == entry.func.parameters.properties[i].name
  {
    var ps := entry.func.parameters.properties;
    seq(|ps|, i requires 0 <= i < |ps| => ps[i].name)
  }

  /** Every required parameter of the entry is one of its declared properties. */
  predicate RequiredDeclared(entry: ToolEntry)
  {
    forall n :: n in entry.func.parameters.required ==> n in PropertyNames(entry)
  }

  /** The catalog's names, in order; the third entry repeats the second's name. */
  lemma CatalogNames(docs: Docstrings)
    ensures Names(Catalog(docs)) ==
      ["extract_entities_from_file", "Internet_search_attribute", "Internet_search_attribute",
       ExecuteToolName, "write_file"]
    ensures "generate_analysis_program" !in Names(Catalog(docs))
  {
  }

  /** Every entry is a function taking an object, described by the matching docstring. */
  lemma CatalogShape(docs: Docstrings)
    ensures forall i :: 0 <= i < 5 ==>
      && Catalog(docs)[i].kind == "function"
      && Catalog(docs)[i].func.parameters.kind == "object"
      && Catalog(docs)[i].func.description == DocAt(docs, i)
  {
  }

  /** Every property the catalog declares is a string. */
  lemma CatalogPropertiesAreStrings(docs: Docstrings)
    ensures forall i, p :: 0 <= i < 5 && p in Catalog(docs)[i].func.parameters.properties ==> p.kind == "string"
  {
    var c := Catalog(docs);
    forall i, p | 0 <= i < 5 && p in c[i].func.parameters.properties
      ensures p.kind == "string"
    {
      var ps := c[i].func.parameters.properties;
      assert ps[0].kind == "string";
      if i == 2 {
        assert p == ps[0] || p == ps[1] || p == ps[2] || p == ps[3] || p == ps[4];
      }
    }
  }

  /** The execution tool declares the single parameter `program_file`, which is also its required list. */
  lemma ExecuteEntryParameters(docs: Docstrings)
    ensures Catalog(docs)[3].func.name == ExecuteToolName
    ensures PropertyNames(Catalog(docs)[3]) == ["program_file"] == Catalog(docs)[3].func.parameters.required
  {
  }

  /** Entries 0, 1 and 3 require exactly the parameters they declare. */
  lemma CatalogRequiredMatch(docs: Docstrings)
    ensures forall i :: i in {0, 1, 3} ==> Catalog(docs)[i].func.parameters.required == PropertyNames(Catalog(docs)[i])
  {
  }

  /** The entry for generate_analysis_program requires `analysis_request`, which it never declares
      (it declares `query_description`). */
  lemma GenerateEntryRequiredUndeclared(docs: Docstrings)
    ensures "analysis_request" in Catalog(docs)[2].func.parameters.required
    ensures "analysis_request" !in PropertyNames(Catalog(docs)[2])
    ensures !RequiredDeclared(Catalog(docs)[2])
  {
    assert Catalog(docs)[2].func.parameters.required[0] == "analysis_request";
  }

  /** The entry for write_file requires `entity` and `attribute`, neither of which it declares. */
  lemma WriteFileEntryRequiredUndeclared(docs: Docstrings)
    ensures Catalog(docs)[4].func.parameters.required == ["entity", "attribute"]
    ensures forall n :: n in Catalog(docs)[4].func.parameters.required ==> n !in PropertyNames(Catalog(docs)[4])
    ensures !RequiredDeclared(Catalog(docs)[4])
  {
    var e := Catalog(docs)[4];
    assert e.func.parameters.required[0] == "entity";
    assert "entity" in e.func.parameters.required && "entity" !in PropertyNames(e);
  }

  /** The catalog as its comments and docstrings describe it: the third entry named after
      generate_analysis_program, and each required list equal to the declared properties. */
  function CorrectedCatalog(docs: Docstrings): (tools: seq<ToolEntry>)
    ensures |tools| == 5
    ensures forall i :: i in {0, 1, 3} ==> tools[i] == Catalog(docs)[i]
    ensures forall i :: 0 <= i < 5 ==> tools[i].func.parameters.required == PropertyNames(tools[i])
  {
    var c := Catalog(docs);
    var g := c[2].func;
    var w := c[4].func;
    c[2 := c[2].(func := g.(name := "generate_analysis_program",
                             parameters := g.parameters.(required := PropertyNames(c[2]))))]
     [4 := c[4].(func := w.(parameters := w.parameters.(required := PropertyNames(c[4]))))]
  }

  /** In the corrected catalog every required parameter is declared and no two entries share a name. */
  lemma CorrectedCatalogConsistent(docs: Docstrings)
    ensures forall i :: 0 <= i < 5 ==> RequiredDeclared(CorrectedCatalog(docs)[i])
    ensures Names(CorrectedCatalog(docs)) ==
      ["extract_entities_from_file", "Internet_search_attribute", "generate_analysis_program",
       ExecuteToolName, "write_file"]
    ensures forall i, j :: 0 <= i < j < 5 ==> Names(CorrectedCatalog(docs))[i] != Names(CorrectedCatalog(docs))[j]
  {
    var c := CorrectedCatalog(docs);
    assert c[1] == Catalog(docs)[1];
  }

  // ---------------------------------------------------------------------
  // Cleaning a generated program (generate_analysis_program)
  // ---------------------------------------------------------------------

  const PythonFence := "```python"
  const Fence := "```"

  /** Removes at most one opening "```python" and at most one closing "```" from the
      model's reply, then strips surrounding whitespace. */
  function StripCodeFences(reply: string): (code: string)
    ensures code == [] || (!IsSpace(code[0]) && !IsSpace(code[|code| - 1]))
    ensures |code| <= |reply|
  {
    Strip(RemoveSuffix(RemovePrefix(reply, PythonFence), Fence))
  }

  /** A reply without fences is only stripped. */
  lemma StripCodeFencesUnfenced(reply: string)
    requires !StartsWith(reply, PythonFence) && !EndsWith(reply, Fence)
    ensures StripCodeFences(reply) == Strip(reply)
  {
  }

  /** Wrapping code in a fenced block and cleaning it gives back the code, stripped. */
  lemma StripCodeFencesWrapped(code: string)
    ensures StripCodeFences(PythonFence + code + Fence) == Strip(code)
  {
    var reply := PythonFence + code + Fence;
    assert reply[..|PythonFence|] == PythonFence;
    var rest := RemovePrefix(reply, PythonFence);
    assert rest == code + Fence;
    assert rest[|rest| - |Fence|..] == Fence;
    assert RemoveSuffix(rest, Fence) == code;
  }

  /** A fenced block has no surrounding whitespace, so stripping leaves it alone. */
  lemma FencedBlockTrimmed(code: string)
    ensures Strip(PythonFence + code + Fence) == PythonFence + code + Fence
  {
    var inner := PythonFence + code + Fence;
    assert inner[0] == '`' by {
      assert inner[0] == PythonFence[0];
    }
    assert inner[|inner| - 1] == '`' by {
      assert inner[|inner| - 1] == Fence[2];
    }
    assert !IsSpace('`');
    StripKeepsTrimmed(inner);
  }

  /** Only one layer of fences is removed: a doubly fenced block keeps its inner fences. */
  lemma StripCodeFencesOneLayer(code: string)
    ensures StripCodeFences(PythonFence + (PythonFence + code + Fence) + Fence) == PythonFence + code + Fence
  {
    StripCodeFencesWrapped(PythonFence + code + Fence);
    FencedBlockTrimmed(code);
  }

  /** As written, the fences are removed before the whitespace: a reply whose closing fence
      is followed by a newline keeps that fence, and the program comes back ending in it. */
  lemma StripCodeFencesTrailingNewline()
    ensures StripCodeFences(PythonFence + "\nx\n" + Fence + "\n") == "x\n" + Fence
  {
    var reply := PythonFence + "\nx\n" + Fence + "\n";
    assert reply[..|PythonFence|] == PythonFence;
    var rest := RemovePrefix(reply, PythonFence);
    assert rest == "\n" + ("x\n" + Fence) + "\n";
    assert rest[|rest| - 1] == '\n';
    assert !EndsWith(rest, Fence);
    StripPadded("\n", "x\n" + Fence, "\n");
  }

  /** The clean-up with the surrounding whitespace stripped first, so that the fences are
      found even when the reply pads them with whitespace. */
  function StripCodeFencesTolerant(reply: string): (code: string)
    ensures code == [] || (!IsSpace(code[0]) && !IsSpace(code[|code| - 1]))
    ensures |code| <= |reply|
  {
    StripCodeFences(Strip(reply))
  }

  /** With whitespace around the fenced block, the tolerant clean-up still gives back the
      program, stripped. */
  lemma StripCodeFencesTolerantPadded(before: string, code: string, after: string)
    requires AllSpace(before) && AllSpace(after)
    ensures StripCodeFencesTolerant(before + (PythonFence + code + Fence) + after) == Strip(code)
  {
    var block := PythonFence + code + Fence;
    assert block[0] == PythonFence[0];
    assert block[|block| - 1] == Fence[2];
    StripPadded(before, block, after);
    StripCodeFencesWrapped(code);
  }

  // ---------------------------------------------------------------------
  // Running a generated program (execute_Python_program)
  // ---------------------------------------------------------------------

  /** How running the program's text ends: normally, with an `Exception` (caught), or with a
      `BaseException` that is not an `Exception`, such as `SystemExit` (not caught). */
  datatype ExecOutcome = Completed | Threw(message: string) | Escaped(message: string)

  /** Reading the program file, which happens before the `try`. */
  datatype FileRead = Read(text: string) | ReadFailed(message: string)

  const SuccessText := "Successfully executed."
  const ErrorPrefix := "Error: "

  /** execute_Python_program with the file read and `exec` given as inputs. */
  function ExecuteProgram(file: FileRead, exec: string -> ExecOutcome): (r: ToolOutcome)
    ensures r.Raised? <==> file.ReadFailed? || exec(file.text).Escaped?
    ensures file.Read? && exec(file.text).Completed? ==> r == Returned(SuccessText)
    ensures file.Read? && exec(file.text).Threw? ==> r == Returned(ErrorPrefix + exec(file.text).message)
  {
    match file
    case ReadFailed(m) => Raised(m)
    case Read(code) =>
      match exec(code)
      case Completed => Returned(SuccessText)
      case Threw(m) => Returned(ErrorPrefix + m)
      case Escaped(m) => Raised(m)
  }

  /** Reads a returned execution text back as the outcome it reports. */
  function ReportedOutcome(text: string): Option<ExecOutcome>
  {
    if text == SuccessText then Some(Completed)
    else if StartsWith(text, ErrorPrefix) then Some(Threw(text[|ErrorPrefix|..]))
    else None
  }

  /** The returned text determines the outcome of the run: success and failure texts never
      collide, and a failure text carries the exception's message unchanged. */
  lemma ExecuteProgramReported(file: FileRead, exec: string -> ExecOutcome)
    requires ExecuteProgram(file, exec).Returned?
    ensures file.Read?
    ensures ReportedOutcome(ExecuteProgram(file, exec).text) == Some(exec(file.text))
    ensures StartsWith(ExecuteProgram(file, exec).text, ErrorPrefix) <==> exec(file.text).Threw?
  {
    var t := ExecuteProgram(file, exec).text;
    assert SuccessText[..|ErrorPrefix|][0] != ErrorPrefix[0];
    if exec(file.text).Threw? {
      assert t[..|ErrorPrefix|] == ErrorPrefix;
      assert t != SuccessText;
    }
  }
}
