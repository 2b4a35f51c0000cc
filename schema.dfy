/** `gather_schema_info`: read the event codes out of the completion and
    collect, per code, the field names a search reports for it. */
module SchemaInfo {
  import opened Strings
  import opened Model

  const CodeSeparator: string := ", "

  /** `completion[1:-1].split(', ')`: never empty. */
  function ParseEventCodes(completion: string): (codes: seq<string>)
    ensures |codes| >= 1
  {
    Split(StripEnds(completion), CodeSeparator)
  }

  /** The parsed codes are exactly the bracketed text cut at each `", "`:
      joined back they give the text between the brackets, and none of them
      still holds a separator. */
  lemma ParsePieces(completion: string)
    ensures Join(ParseEventCodes(completion), CodeSeparator) == StripEnds(completion)
    ensures forall c :: c in ParseEventCodes(completion) ==> !Occurs(CodeSeparator, c)
  {
    SplitJoin(StripEnds(completion), CodeSeparator);
    SplitPiecesFree(StripEnds(completion), CodeSeparator);
  }

  /** A completion in the requested `[a, b, ...]` shape parses back into its
      codes, as long as no code holds a comma. */
  lemma ParseListFormat(codes: seq<string>)
    requires |codes| >= 1
    requires forall c :: c in codes ==> ',' !in c
    ensures ParseEventCodes("[" + Join(codes, CodeSeparator) + "]") == codes
  {
    var body := Join(codes, CodeSeparator);
    var s := "[" + body + "]";
    assert s[1..|s| - 1] == body;
    SplitOfJoin(codes, CodeSeparator);
  }

  /** The example completion given in the event-code prompt. */
  lemma ParseExample()
    ensures ParseEventCodes("[4769, 4688]") == ["4769", "4688"]
  {
    ParseListFormat(["4769", "4688"]);
    assert "[" + Join(["4769", "4688"], CodeSeparator) + "]" == "[4769, 4688]";
  }

  /** An empty list `[]` still yields one (empty) code. */
  lemma ParseEmptyList()
    ensures ParseEventCodes("[]") == [""]
  {
  }

  /** The search issued for one event code. */
  function FieldQuery(code: string): string
  {
    "search index=\"main\" EventCode=" + code + " | fieldsummary |table field "
  }

  /** The field names of every dictionary row, in order. */
  function AllFields(rows: seq<SearchRow>): seq<string>
  {
    if rows == [] then []
    else (if rows[0].DictRow? then rows[0].values else []) + AllFields(rows[1..])
  }

  /** A name is collected exactly when some dictionary row holds it. */
  lemma {:induction false} AllFieldsMembers(rows: seq<SearchRow>, name: string)
    ensures name in AllFields(rows) <==>
      exists i :: 0 <= i < |rows| && rows[i].DictRow? && name in rows[i].values
  {
    if rows != [] {
      AllFieldsMembers(rows[1..], name);
      if name in AllFields(rows[1..]) {
        var i :| 0 <= i < |rows[1..]| && rows[1..][i].DictRow? && name in rows[1..][i].values;
        assert rows[i + 1] == rows[1..][i];
      }
      if exists i :: 0 <= i < |rows| && rows[i].DictRow? && name in rows[i].values {
        var i :| 0 <= i < |rows| && rows[i].DictRow? && name in rows[i].values;
        if i > 0 {
          assert rows[1..][i - 1] == rows[i];
        }
      }
    }
  }

  /** The schema the gathering loop builds. */
  function SchemaOf(codes: seq<string>, search: string -> seq<SearchRow>): Schema
  {
    map c | c in codes :: AllFields(search(FieldQuery(c)))
  }

  /** One key per parsed code, holding the fields its search reported. */
  lemma SchemaOfKeys(codes: seq<string>, search: string -> seq<SearchRow>)
    ensures SchemaOf(codes, search).Keys == set c | c in codes
    ensures forall c :: c in SchemaOf(codes, search) ==>
      SchemaOf(codes, search)[c] == AllFields(search(FieldQuery(c)))
  {
  }

  lemma SchemaOfSnoc(codes: seq<string>, code: string, search: string -> seq<SearchRow>)
    ensures SchemaOf(codes + [code], search)
         == SchemaOf(codes, search)[code := AllFields(search(FieldQuery(code)))]
  {
    var a := SchemaOf(codes + [code], search);
    var b := SchemaOf(codes, search)[code := AllFields(search(FieldQuery(code)))];
    assert a.Keys == b.Keys;
  }

  /** The searches issued for the codes, in order (duplicates included). */
  function FieldSearches(codes: seq<string>): seq<Event>
  {
    if codes == [] then []
    else [FieldSearch(FieldQuery(codes[0]))] + FieldSearches(codes[1..])
  }

  /** The i-th search is the one for the i-th code. */
  lemma {:induction false} FieldSearchesAt(codes: seq<string>)
    ensures |FieldSearches(codes)| == |codes|
    ensures forall i :: 0 <= i < |codes| ==> FieldSearches(codes)[i] == FieldSearch(FieldQuery(codes[i]))
  {
    if codes != [] {
      FieldSearchesAt(codes[1..]);
    }
  }

  lemma FieldSearchesSnoc(codes: seq<string>, code: string)
    ensures FieldSearches(codes + [code]) == FieldSearches(codes) + [FieldSearch(FieldQuery(code))]
  {
    var a := FieldSearches(codes + [code]);
    var b := FieldSearches(codes) + [FieldSearch(FieldQuery(code))];
    FieldSearchesAt(codes + [code]);
    FieldSearchesAt(codes);
    assert |a| == |b|;
    forall i | 0 <= i < |a| ensures a[i] == b[i] {
      if i < |codes| {
        assert (codes + [code])[i] == codes[i];
      }
    }
  }

  /** `gather_schema_info(content)` with the completion of the event-code
      prompt and the search collaborator as parameters: one search per code,
      in order, and the schema `SchemaOf` describes. */
  method GatherSchemaInfo(content: string, completion: string, search: string -> seq<SearchRow>)
    returns (schema: Schema, calls: seq<Event>)
    ensures schema == SchemaOf(ParseEventCodes(completion), search)
    ensures calls == [ExtractEventCodes(content)] + FieldSearches(ParseEventCodes(completion))
  {
    schema := map[];
    calls := [ExtractEventCodes(content)];
    var codes := ParseEventCodes(completion);
    for i := 0 to |codes|
      invariant schema == SchemaOf(codes[..i], search)
      invariant calls == [ExtractEventCodes(content)] + FieldSearches(codes[..i])
    {
      var code := codes[i];
      var query := FieldQuery(code);
      FieldSearchesSnoc(codes[..i], code);
      SchemaOfSnoc(codes[..i], code, search);
      assert codes[..i + 1] == codes[..i] + [code];
      calls := calls + [FieldSearch(query)];
      var rows := search(query);
      schema := schema[code := AllFields(rows)];
    }
    assert codes[..|codes|] == codes;
  }
}
