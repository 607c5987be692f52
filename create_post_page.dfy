/**
 * The post editor (client/src/pages/CreatePost.jsx): the form state, the
 * change handler, the comma-separated tag parser, and the submit lifecycle
 * around the `createPost` service call.
 */
module CreatePostPage {
  import opened Wrappers
  import opened Text
  import opened Seqs
  import opened ApiErrors

  /** A value held in the form state, or in the data sent to the service. */
  datatype FormValue = Text(text: string) | Flag(flag: bool) | List(items: seq<string>)

  type Form = map<string, FormValue>

  /** The form as the page first renders it. */
  const InitialForm: Form := map[
    "title" := Text(""), "excerpt" := Text(""), "content" := Text(""),
    "tags" := Text(""), "featured" := Flag(false)]

  /** `e.target`: its `name`, `value`, whether it is a checkbox, and `checked`. */
  datatype InputEvent = InputEvent(name: string, value: string, isCheckbox: bool, checked: bool)

  const FailedPrefix := "Failed to create post: "
  const FailedFallback := "Failed to create post. Please try again."
  /** What the engine reports when `formData.tags` is not a string. */
  const TagsNotText := "formData.tags.split is not a function"
  /** What the engine reports when the form has no `tags` entry at all. */
  const TagsMissing := "Cannot read properties of undefined (reading 'split')"

  /** The message of the TypeError `formData.tags.split(',')` throws. */
  function SplitError(form: Form): string {
    if "tags" in form then TagsNotText else TagsMissing
  }

  predicate NonEmpty(s: string) { s != "" }

  predicate IsBlank(s: string) { s == "" }

  /** `s.split(',').map(tag => tag.trim()).filter(tag => tag)`. */
  function ParseTags(s: string): seq<string> {
    Filter(Map(Split(s, ','), Trim), NonEmpty)
  }

  /** Every parsed tag is non-empty, trimmed and free of commas, and a piece
      of the input that trims to something non-empty is kept. */
  lemma ParseTagsSpec(s: string)
    ensures forall t :: t in ParseTags(s) ==> t != "" && Trim(t) == t && ',' !in t
    ensures forall k :: 0 <= k < |Split(s, ',')| && Trim(Split(s, ',')[k]) != "" ==>
      Trim(Split(s, ',')[k]) in ParseTags(s)
  {
    var pieces := Split(s, ',');
    var trimmed := Map(pieces, Trim);
    assert ParseTags(s) == Filter(trimmed, NonEmpty);
    TagsAreTrimmedPieces(trimmed);
    TrimmedPiecesAreClean(pieces);
  }

  /** Conversely, every parsed tag is a trimmed piece, the tags keep the
      order of the pieces, and each non-empty trimmed piece occurs among the
      tags as often as among the pieces: the tags are exactly the non-empty
      trimmed pieces, in order, duplicates kept. */
  lemma ParseTagsArePieces(s: string)
    ensures forall t :: t in ParseTags(s) ==> t in Map(Split(s, ','), Trim)
    ensures IsSubsequence(ParseTags(s), Map(Split(s, ','), Trim))
    ensures "" !in ParseTags(s)
    ensures forall t :: t != "" ==> multiset(ParseTags(s))[t] == multiset(Map(Split(s, ','), Trim))[t]
  {
    var trimmed := Map(Split(s, ','), Trim);
    assert ParseTags(s) == Filter(trimmed, NonEmpty);
    TagsAreTrimmedPieces(trimmed);
    NonEmptyCounts(trimmed);
  }

  /** Dropping the empty strings keeps the count of every other one. */
  lemma NonEmptyCounts(trimmed: seq<string>)
    ensures "" !in Filter(trimmed, NonEmpty)
    ensures forall t :: t != "" ==> multiset(Filter(trimmed, NonEmpty))[t] == multiset(trimmed)[t]
  {
    FilterPartition(trimmed, NonEmpty, IsBlank);
    forall t | t != "" ensures multiset(Filter(trimmed, NonEmpty))[t] == multiset(trimmed)[t] {
      assert t !in Filter(trimmed, IsBlank);
    }
  }

  /** A trimmed piece of a comma split is trimmed and comma-free. */
  lemma TrimmedPiecesAreClean(pieces: seq<string>)
    requires forall k :: 0 <= k < |pieces| ==> ',' !in pieces[k]
    ensures forall t :: t in Map(pieces, Trim) ==> Trim(t) == t && ',' !in t
  {
    var trimmed := Map(pieces, Trim);
    forall t | t in trimmed ensures Trim(t) == t && ',' !in t {
      var k :| 0 <= k < |trimmed| && trimmed[k] == t;
      TrimIdempotent(pieces[k]);
      TrimKeepsOut(pieces[k], ',');
    }
  }

  /** The non-empty trimmed pieces are trimmed pieces, in their order. */
  lemma TagsAreTrimmedPieces(trimmed: seq<string>)
    ensures forall t :: t in Filter(trimmed, NonEmpty) ==> t in trimmed && t != ""
    ensures IsSubsequence(Filter(trimmed, NonEmpty), trimmed)
    ensures forall k :: 0 <= k < |trimmed| && trimmed[k] != "" ==> trimmed[k] in Filter(trimmed, NonEmpty)
  {
    FilterIsSubsequence(trimmed, NonEmpty);
    assert forall k :: 0 <= k < |trimmed| ==> trimmed[k] in trimmed;
  }

  predicate AllWhitespace(p: string) {
    forall i :: 0 <= i < |p| ==> IsWhitespace(p[i])
  }

  predicate AllBlank(parts: seq<string>) {
    forall k :: 0 <= k < |parts| ==> AllWhitespace(parts[k])
  }

  predicate OnlySeparators(s: string) {
    forall i :: 0 <= i < |s| ==> s[i] == ',' || IsWhitespace(s[i])
  }

  lemma AllBlankCons(p: string, parts: seq<string>)
    ensures AllBlank([p] + parts) <==> AllWhitespace(p) && AllBlank(parts)
  {
    assert ([p] + parts)[0] == p;
    assert forall k :: 0 <= k < |parts| ==> ([p] + parts)[k + 1] == parts[k];
  }

  lemma ConsFacts(c: char, s: string)
    ensures AllWhitespace([c] + s) <==> IsWhitespace(c) && AllWhitespace(s)
    ensures OnlySeparators([c] + s) <==> (c == ',' || IsWhitespace(c)) && OnlySeparators(s)
  {
    assert ([c] + s)[0] == c;
    assert forall i :: 0 <= i < |s| ==> ([c] + s)[i + 1] == s[i];
  }

  /** The pieces are all blank exactly when the input holds nothing but
      commas and whitespace. */
  lemma {:induction false} BlankPieces(s: string)
    ensures AllBlank(Split(s, ',')) <==> OnlySeparators(s)
    decreases |s|
  {
    if s != [] {
      BlankPieces(s[1..]);
      var rest := Split(s[1..], ',');
      ConsFacts(s[0], s[1..]);
      assert [s[0]] + s[1..] == s;
      if s[0] != ',' {
        ConsFacts(s[0], rest[0]);
        AllBlankCons([s[0]] + rest[0], rest[1..]);
        AllBlankCons(rest[0], rest[1..]);
        assert [rest[0]] + rest[1..] == rest;
      } else {
        AllBlankCons("", rest);
      }
    }
  }

  /** No tag comes out exactly when the input is empty or holds only commas
      and whitespace; then the preview shows no tag block. */
  lemma NoTagsIff(s: string)
    ensures ParseTags(s) == [] <==> OnlySeparators(s)
  {
    var pieces := Split(s, ',');
    var trimmed := Map(pieces, Trim);
    assert ParseTags(s) == Filter(trimmed, NonEmpty);
    BlankPieces(s);
    FilterEmpty(trimmed, NonEmpty);
    forall k | 0 <= k < |pieces| ensures trimmed[k] == "" <==> AllWhitespace(pieces[k]) {
      TrimBlank(pieces[k]);
    }
  }

  /** A piece trims to nothing exactly when it is all whitespace. */
  lemma TrimBlank(p: string)
    ensures Trim(p) == "" <==> AllWhitespace(p)
  {
  }

  /** `{ ...formData, tags: parsed }`, or `None` where `formData.tags.split`
      throws because `tags` is not a string. */
  function PostData(form: Form): (r: Option<Form>)
    ensures r.Some? <==> "tags" in form && form["tags"].Text?
    ensures r.Some? ==> "tags" in r.value && r.value["tags"] == List(ParseTags(form["tags"].text))
    ensures r.Some? ==> forall k :: k in r.value <==> k in form
    ensures r.Some? ==> forall k :: k in form && k != "tags" ==> r.value[k] == form[k]
  {
    if "tags" in form && form["tags"].Text? then Some(form["tags" := List(ParseTags(form["tags"].text))])
    else None
  }

  /** How the service call ended. */
  datatype CallOutcome = Created | Failed(error: RequestError)

  class Editor {
    var formData: Form
    var isLoading: bool
    var error: string
    /** The `postData` of each `createPost` call, oldest first. */
    var createCalls: seq<Form>

    constructor ()
      ensures formData == InitialForm && !isLoading && error == "" && createCalls == []
    {
      formData := InitialForm;
      isLoading := false;
      error := "";
      createCalls := [];
    }

    /** `handleChange`: the named entry only becomes `checked` for a checkbox
        and `value` otherwise, and any error is cleared. */
    method HandleChange(e: InputEvent)
      modifies this
      ensures formData == old(formData)[e.name := if e.isCheckbox then Flag(e.checked) else Text(e.value)]
      ensures forall k :: k in old(formData) && k != e.name ==> k in formData && formData[k] == old(formData)[k]
      ensures error == ""
      ensures isLoading == old(isLoading) && createCalls == old(createCalls)
    {
      formData := formData[e.name := if e.isCheckbox then Flag(e.checked) else Text(e.value)];
      if error != "" {
        error := "";
      }
    }

    /** The part of `handleSubmit` before the call settles: loading, the error
        cleared, and the call made with the parsed tags; a form whose tags are
        not text throws before any call. Answers whether a call was made. */
    method BeginSubmit() returns (called: bool)
      modifies this
      ensures isLoading && error == "" && formData == old(formData)
      ensures called <==> PostData(old(formData)).Some?
      ensures called ==> createCalls == old(createCalls) + [PostData(old(formData)).value]
      ensures !called ==> createCalls == old(createCalls)
    {
      isLoading := true;
      error := "";
      var postData := PostData(formData);
      if postData.None? {
        return false;
      }
      createCalls := createCalls + [postData.value];
      called := true;
    }

    /** The `catch` and `finally` of `handleSubmit`. */
    method FinishSubmit(outcome: CallOutcome)
      modifies this
      ensures !isLoading && formData == old(formData) && createCalls == old(createCalls)
      ensures outcome.Created? ==> error == old(error)
      ensures outcome.Failed? ==> error == Describe(outcome.error, FailedPrefix, FailedFallback)
    {
      if outcome.Failed? {
        error := Describe(outcome.error, FailedPrefix, FailedFallback);
      }
      isLoading := false;
    }

    /** `handleSubmit` from start to finish, with the service's answer given:
        loading ends whatever happens, and a failure shows its message. */
    method HandleSubmit(outcome: CallOutcome)
      modifies this
      ensures !isLoading && formData == old(formData)
      ensures PostData(old(formData)).Some? ==>
        && createCalls == old(createCalls) + [PostData(old(formData)).value]
        && error == if outcome.Failed? then Describe(outcome.error, FailedPrefix, FailedFallback) else ""
      ensures PostData(old(formData)).None? ==>
        createCalls == old(createCalls) && error == SplitError(old(formData))
    {
      var called := BeginSubmit();
      if called {
        FinishSubmit(outcome);
      } else {
        FinishSubmit(Failed(RequestError(None, false, Some(SplitError(formData)))));
      }
    }
  }
}
