/**
 * `Client.ParseDefinitions` (`internal/api/client.go`): the `FRD.ALL` list of
 * the definitions document, one domain definition per JSON record, in order.
 */
module Definitions {
  import opened Wrappers
  import opened Text
  import opened Json
  import opened ApiTypes
  import Model

  /** The note a definition shows: its own note, or else its notes joined by spaces. */
  function ResolvedNote(d: DefinitionJson): Str {
    if |d.notes| > 0 && d.note == "" then Join(d.notes, " ") else d.note
  }

  function ToDefinition(d: DefinitionJson): Model.Definition {
    Model.Definition(d.id, d.term, d.alts, d.definition, ResolvedNote(d), d.reference, d.referenceUrl)
  }

  /** One domain definition per record, position by position. */
  function Converted(all: seq<DefinitionJson>): (defs: seq<Model.Definition>)
    ensures |defs| == |all|
    ensures forall i :: 0 <= i < |all| ==> defs[i] == ToDefinition(all[i])
  {
    seq(|all|, i requires 0 <= i < |all| => ToDefinition(all[i]))
  }

  /** What `ParseDefinitions` returns for a payload. */
  function DefinitionsOf(data: Option<Value>): (r: Result<seq<Model.Definition>, Error>)
    ensures r.Err? <==> data.None? || DecodeDefinitionsDocument(data.value).None?
    ensures r.Ok? ==> |r.value| == |DecodeDefinitionsDocument(data.value).value.frdAll|
  {
    var doc :- Unmarshal(data, DecodeDefinitionsDocument);
    Ok(Converted(doc.frdAll))
  }

  /** `ParseDefinitions`: decode the document, then convert `FRD.ALL` record by record. */
  method ParseDefinitions(data: Option<Value>) returns (r: Result<seq<Model.Definition>, Error>)
    ensures r == DefinitionsOf(data)
  {
    var doc :- Unmarshal(data, DecodeDefinitionsDocument);
    var definitions := ConvertAll(doc.frdAll);
    return Ok(definitions);
  }

  /** The loop over `doc.FRD.ALL`, filling a slice allocated at its final length. */
  method ConvertAll(all: seq<DefinitionJson>) returns (defs: seq<Model.Definition>)
    ensures defs == Converted(all)
  {
    var definitions := new Model.Definition[|all|];
    for i := 0 to |all|
      invariant forall k :: 0 <= k < i ==> definitions[k] == ToDefinition(all[k])
    {
      var d := all[i];
      var note := CoalesceNote(d);
      definitions[i] := Model.Definition(d.id, d.term, d.alts, d.definition, note, d.reference, d.referenceUrl);
    }
    defs := definitions[..];
    assert defs == Converted(all);
  }

  /** The note-coalescing loop. */
  method CoalesceNote(d: DefinitionJson) returns (note: Str)
    ensures note == ResolvedNote(d)
  {
    note := d.note;
    if |d.notes| > 0 && note == "" {
      for j := 0 to |d.notes|
        invariant note == Join(d.notes[..j], " ")
      {
        if j > 0 {
          note := note + " ";
        }
        note := note + d.notes[j];
        assert d.notes[..j + 1][..j] == d.notes[..j];
      }
      assert d.notes[..|d.notes|] == d.notes;
    }
  }

  /** A non-empty note is kept; an empty one is replaced by the notes joined with single spaces. */
  lemma ResolvedNoteCases(d: DefinitionJson)
    ensures d.note != "" ==> ResolvedNote(d) == d.note
    ensures d.note == "" ==> ResolvedNote(d) == Join(d.notes, " ")
  {
  }

  /** Joined notes of single words read back as those words. */
  lemma {:induction false} ResolvedNoteWords(d: DefinitionJson)
    requires d.note == ""
    requires forall i :: 0 <= i < |d.notes| ==> IsWord(d.notes[i])
    ensures Fields(ResolvedNote(d)) == d.notes
  {
    FieldsJoin(d.notes);
  }

  lemma NoteExamples()
    ensures ResolvedNote(DefinitionJson("", "", [], "", "", ["a", "b"], "", "")) == "a b"
    ensures ResolvedNote(DefinitionJson("", "", [], "", "x", ["a", "b"], "", "")) == "x"
  {
    JoinTwo("a", "b", " ");
  }

  /**
   * Outcomes: a payload that is not JSON is a syntax error, JSON of the wrong
   * shape a type error, otherwise one definition per `FRD.ALL` record, with
   * the record's fields in the same position.
   */
  lemma DefinitionsOfCases(data: Option<Value>)
    ensures data.None? ==> DefinitionsOf(data) == Err(SyntaxError)
    ensures data.Some? && DecodeDefinitionsDocument(data.value).None? ==> DefinitionsOf(data) == Err(TypeError)
    ensures data.Some? && DecodeDefinitionsDocument(data.value).Some? ==>
      var all := DecodeDefinitionsDocument(data.value).value.frdAll;
      var r := DefinitionsOf(data);
      r.Ok? && |r.value| == |all| &&
      forall i :: 0 <= i < |all| ==>
        r.value[i].id == all[i].id && r.value[i].term == all[i].term && r.value[i].alts == all[i].alts &&
        r.value[i].text == all[i].definition && r.value[i].note == ResolvedNote(all[i]) &&
        r.value[i].reference == all[i].reference && r.value[i].referenceUrl == all[i].referenceUrl
  {
  }

  /** A document with no `FRD` section, or `null`, has no definitions and is not an error. */
  lemma NoDefinitionsSection()
    ensures DefinitionsOf(Some(Object([]))) == Ok([])
    ensures DefinitionsOf(Some(Null)) == Ok([])
    ensures DefinitionsOf(Some(Array([]))) == Err(TypeError)
    ensures DefinitionsOf(Some(Object([Member("FRD", Object([]))]))) == Ok([])
  {
    var info := DocumentInfo("", "", map[], [], FrontMatter([], "", []));
    assert DecodeFrontMatter(Null) == Some(FrontMatter([], "", []));
    assert DecodeDocumentInfo(Null) == Some(info);
    assert DecodeFrdSection(Null) == Some([]);
    assert DecodeFrdSection(Object([])) == Some([]);
    assert DecodeDefinitionsDocument(Object([])) == Some(DefinitionsDocument("", "", info, []));
    assert DecodeDefinitionsDocument(Null) == Some(DefinitionsDocument("", "", info, []));
    assert DecodeDefinitionsDocument(Object([Member("FRD", Object([]))])) == Some(DefinitionsDocument("", "", info, []));
    DefinitionsOfCases(Some(Object([])));
    DefinitionsOfCases(Some(Null));
    DefinitionsOfCases(Some(Object([Member("FRD", Object([]))])));
  }
}
