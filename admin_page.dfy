/**
 * The admin page's product form helpers (frontend/src/pages/Admin.jsx): the comma list
 * inputs, the list of image URL fields, the file picker limit and the admin guard.
 */
module AdminPage {
  import opened Optional
  import opened Accounts
  import opened JsText
  import opened Seqs

  // ---------------------------------------------------------------- comma lists

  function TrimAll(parts: seq<string>): (r: seq<string>)
    ensures |r| == |parts| && forall i :: 0 <= i < |r| ==> r[i] == Trim(parts[i])
  {
    Map(parts, Trimmer())
  }

  function Trimmer(): string -> string { (s: string) => Trim(s) }

  function NonEmpty(): string -> bool { (s: string) => s != "" }

  /** The string is its own trim: no white space at either end. */
  predicate Trimmed(s: string) {
    Trim(s) == s
  }

  /**
   * `handleArrayInput`: split at commas, trim each part, drop the empty ones.
   * `ArrayInputParts` states which entries are kept, and `ArrayInputOnePart` with
   * `ArrayInputAtComma` their order.
   */
  function ArrayInput(value: string): (r: seq<string>)
    ensures forall i :: 0 <= i < |r| ==> r[i] != "" && Trimmed(r[i]) && ',' !in r[i]
  {
    var trimmed := TrimAll(Split(value, ','));
    TidyParts(Split(value, ','));
    FilterPreserves(trimmed, NonEmpty(), Tidy());
    Filter(trimmed, NonEmpty())
  }

  /** Every entry read is a trimmed comma part, and every comma part that is not blank is read, trimmed. */
  lemma ArrayInputParts(value: string)
    ensures forall i :: 0 <= i < |ArrayInput(value)| ==> ArrayInput(value)[i] in TrimAll(Split(value, ','))
    ensures var parts := Split(value, ',');
            forall j :: 0 <= j < |parts| && !IsBlank(parts[j]) ==> Trim(parts[j]) in ArrayInput(value)
  {
    KeepsNonBlank(Split(value, ','));
  }

  /** Every part that is not blank survives trimming and dropping the empty parts. */
  lemma KeepsNonBlank(parts: seq<string>)
    ensures forall j :: 0 <= j < |parts| && !IsBlank(parts[j]) ==> Trim(parts[j]) in Filter(TrimAll(parts), NonEmpty())
  {
    var trimmed := TrimAll(parts);
    FilterComplete(trimmed, NonEmpty());
    forall j | 0 <= j < |parts| && !IsBlank(parts[j])
      ensures Trim(parts[j]) in Filter(trimmed, NonEmpty())
    {
      assert trimmed[j] == Trim(parts[j]);
      assert NonEmpty()(trimmed[j]);
    }
  }

  /** A value without a comma gives its trimmed self, or nothing when it is blank. */
  lemma ArrayInputOnePart(x: string)
    requires ',' !in x
    ensures ArrayInput(x) == if IsBlank(x) then [] else [Trim(x)]
  {
    SplitNoSeparator(x, ',');
    var t := Trim(x);
    assert TrimAll([x]) == [t];
    FilterSingleton(t, NonEmpty());
  }

  /** The entries before the first comma come first, followed by the entries of the rest. */
  lemma ArrayInputAtComma(x: string, y: string)
    requires ',' !in x
    ensures ArrayInput(x + [','] + y) == ArrayInput(x) + ArrayInput(y)
  {
    var tail := TrimAll(Split(y, ','));
    var head := [Trim(x)];
    assert ArrayInput(x + [','] + y) == Filter(head + tail, NonEmpty()) by {
      SplitPrefix(x, y, ',');
      TrimAllCons(x, Split(y, ','));
    }
    assert ArrayInput(x) == Filter(head, NonEmpty()) by {
      SplitNoSeparator(x, ',');
      TrimAllCons(x, []);
    }
    assert Filter(head + tail, NonEmpty()) == Filter(head, NonEmpty()) + ArrayInput(y) by {
      FilterAppend(head, tail, NonEmpty());
    }
  }

  /** Trimming a list with a head trims the head, then the rest. */
  lemma TrimAllCons(x: string, rest: seq<string>)
    ensures TrimAll([x] + rest) == [Trim(x)] + TrimAll(rest)
  {
    MapCons(x, rest, Trimmer());
  }

  /** A blank part between two commas is dropped, and the parts around it keep their order. */
  lemma BlankPartDropped(x: string, blank: string, y: string)
    requires ',' !in x && ',' !in blank && IsBlank(blank)
    ensures ArrayInput(x + [','] + blank + [','] + y) == ArrayInput(x) + ArrayInput(y)
  {
    var rest := blank + [','] + y;
    assert ArrayInput(x + [','] + blank + [','] + y) == ArrayInput(x) + ArrayInput(rest) by {
      assert x + [','] + blank + [','] + y == x + [','] + rest;
      ArrayInputAtComma(x, rest);
    }
    assert ArrayInput(rest) == ArrayInput(y) by {
      ArrayInputAtComma(blank, y);
      ArrayInputOnePart(blank);
    }
  }

  /** `"a, ,b"`, for any two characters that are neither white space nor commas: `["a", "b"]`. */
  lemma ArrayInputExample(s: string, a: char, b: char)
    requires !IsSpace(a) && !IsSpace(b) && a != ',' && b != ','
    requires s == [a, ',', ' ', ',', b]
    ensures ArrayInput(s) == [[a], [b]]
  {
    assert ArrayInput(s) == ArrayInput([a]) + ArrayInput([b]) by {
      assert s == [a] + [','] + [' '] + [','] + [b];
      assert IsSpace([' '][0]);
      BlankPartDropped([a], [' '], [b]);
    }
    LetterPart(a);
    LetterPart(b);
    PairDisplay([a], [b]);
  }

  /** A single letter is read as itself. */
  lemma LetterPart(c: char)
    requires !IsSpace(c) && c != ','
    ensures ArrayInput([c]) == [[c]]
  {
    ArrayInputOnePart([c]);
    LetterTrimmed(c);
  }

  /** A single character that is not white space is its own trim. */
  lemma LetterTrimmed(c: char)
    requires !IsSpace(c)
    ensures Trim([c]) == [c]
  {
    assert TrimStart([c]) == [c];
    assert TrimEnd([c]) == [c];
  }

  /** Trimmed parts of a split at commas are trimmed and comma-free. */
  lemma TidyParts(parts: seq<string>)
    requires forall i :: 0 <= i < |parts| ==> ',' !in parts[i]
    ensures forall j :: 0 <= j < |TrimAll(parts)| ==> Tidy()(TrimAll(parts)[j])
  {
    forall j | 0 <= j < |parts| ensures Tidy()(TrimAll(parts)[j]) {
      TrimIdempotent(parts[j]);
      TrimWithin(parts[j]);
    }
  }

  /** Trimmed and free of commas. */
  function Tidy(): string -> bool { (s: string) => Trimmed(s) && ',' !in s }

  /** Trimming keeps a slice of the string, so it adds no character. */
  lemma TrimWithin(s: string)
    ensures forall c :: c in Trim(s) ==> c in s
  {
    var t := TrimStart(s);
    var a, b := |s| - |t|, |s| - |t| + |TrimEnd(t)|;
    assert Trim(s) == s[a..b] by {
      assert t == s[a..];
      assert TrimEnd(t) == t[..|TrimEnd(t)|];
    }
    SliceWithin(s, a, b);
  }

  /** A list of non-empty, trimmed, comma-free entries survives being joined with commas and read back. */
  lemma {:induction false} ArrayInputRoundTrip(parts: seq<string>)
    requires |parts| >= 1
    requires forall i :: 0 <= i < |parts| ==> parts[i] != "" && Trimmed(parts[i]) && ',' !in parts[i]
    ensures ArrayInput(Join(parts, ',')) == parts
  {
    SplitJoin(parts, ',');
    TrimAllTrimmed(parts);
    FilterKeepsAll(parts, NonEmpty());
  }

  /** Trimming parts that are already trimmed changes none of them. */
  lemma TrimAllTrimmed(parts: seq<string>)
    requires forall i :: 0 <= i < |parts| ==> Trimmed(parts[i])
    ensures TrimAll(parts) == parts
  {
    assert forall i :: 0 <= i < |parts| ==> TrimAll(parts)[i] == parts[i];
  }

  // ---------------------------------------------------------------- image URL fields

  /** The most URL fields and files the form accepts. */
  const MaxImages := 5

  /** The URL fields of a fresh form: one empty field. */
  const InitialImageUrls: seq<string> := [""]

  /** `handleImageUrlChange`: the field at `index` takes the new value. */
  function ReplaceUrlAt(urls: seq<string>, index: nat, value: string): (r: seq<string>)
    requires index < |urls|
    ensures |r| == |urls| && r[index] == value
    ensures forall j :: 0 <= j < |urls| && j != index ==> r[j] == urls[j]
  {
    urls[index := value]
  }

  /** `addImageUrlField`: one more empty field, unless there are five already. */
  function AddUrlField(urls: seq<string>): (r: seq<string>)
    ensures |urls| < MaxImages ==> r == urls + [""]
    ensures |urls| >= MaxImages ==> r == urls
  {
    if |urls| < MaxImages then urls + [""] else urls
  }

  /** `removeImageUrlField`: drops the field at `index`, unless it is the only field. */
  function RemoveUrlField(urls: seq<string>, index: int): (r: seq<string>)
    ensures |urls| > 1 && 0 <= index < |urls| ==> r == urls[..index] + urls[index + 1..]
    ensures |urls| <= 1 || index < 0 || index >= |urls| ==> r == urls
  {
    if |urls| > 1 then KeepOthers(urls, index, 0) else urls
  }

  /** `filter((_, i) => i !== index)`, walking the positions from `from`. */
  function KeepOthers(urls: seq<string>, index: int, from: nat): (r: seq<string>)
    requires from <= |urls|
    ensures 0 <= index - from < |urls| - from ==> r == urls[from..index] + urls[index + 1..]
    ensures !(from <= index < |urls|) ==> r == urls[from..]
    decreases |urls| - from
  {
    if from == |urls| then []
    else
      var rest := KeepOthers(urls, index, from + 1);
      assert urls[from..] == [urls[from]] + urls[from + 1..];
      if from == index then rest
      else
        assert from < index < |urls| ==> urls[from..index] == [urls[from]] + urls[from + 1..index];
        [urls[from]] + rest
  }

  /** An edit of the URL list the page can make. */
  datatype UrlEdit = Replace(index: nat, value: string) | AddField | RemoveField(position: int)

  /** The page only edits fields it shows, so a replaced index is always in range. */
  predicate Offered(urls: seq<string>, e: UrlEdit) {
    e.Replace? ==> e.index < |urls|
  }

  function ApplyEdit(urls: seq<string>, e: UrlEdit): seq<string>
    requires Offered(urls, e)
  {
    match e
    case Replace(index, value) => ReplaceUrlAt(urls, index, value)
    case AddField => AddUrlField(urls)
    case RemoveField(position) => RemoveUrlField(urls, position)
  }

  /** Every edit in the run is one the page offers at that point. */
  predicate OfferedRun(urls: seq<string>, edits: seq<UrlEdit>)
    decreases |edits|
  {
    edits == [] || (Offered(urls, edits[0]) && OfferedRun(ApplyEdit(urls, edits[0]), edits[1..]))
  }

  function ApplyEdits(urls: seq<string>, edits: seq<UrlEdit>): seq<string>
    requires OfferedRun(urls, edits)
    decreases |edits|
  {
    if edits == [] then urls else ApplyEdits(ApplyEdit(urls, edits[0]), edits[1..])
  }

  /** One edit keeps the number of fields between 1 and 5. */
  lemma EditKeepsBounds(urls: seq<string>, e: UrlEdit)
    requires 1 <= |urls| <= MaxImages && Offered(urls, e)
    ensures 1 <= |ApplyEdit(urls, e)| <= MaxImages
  {
  }

  /** From any list of 1 to 5 fields, and so from the initial one, any run of edits keeps 1 to 5 fields. */
  lemma {:induction false} EditsKeepBounds(urls: seq<string>, edits: seq<UrlEdit>)
    requires 1 <= |urls| <= MaxImages && OfferedRun(urls, edits)
    ensures 1 <= |ApplyEdits(urls, edits)| <= MaxImages
    decreases |edits|
  {
    if edits != [] {
      EditKeepsBounds(urls, edits[0]);
      EditsKeepBounds(ApplyEdit(urls, edits[0]), edits[1..]);
    }
  }

  /** From the fresh form's single field, any run of edits the page offers keeps 1 to 5 fields. */
  lemma FormKeepsBounds(edits: seq<UrlEdit>)
    requires OfferedRun(InitialImageUrls, edits)
    ensures 1 <= |ApplyEdits(InitialImageUrls, edits)| <= MaxImages
  {
    EditsKeepBounds(InitialImageUrls, edits);
  }

  // ---------------------------------------------------------------- files and access

  /** `handleImageChange`: a selection of more than five files is refused and the chosen images stay as they were. */
  function ImageChange<F>(images: seq<F>, selected: seq<F>): (r: seq<F>)
    ensures |selected| > MaxImages ==> r == images
    ensures |selected| <= MaxImages ==> r == selected
    ensures |r| <= MaxImages || r == images
  {
    if |selected| > MaxImages then images else selected
  }

  datatype AdminView = AccessDenied | Dashboard

  /** The guard clause: only a signed-in admin sees the dashboard. */
  function ViewFor(user: Option<User>): (v: AdminView)
    ensures v == Dashboard <==> user.Some? && user.value.isAdmin
  {
    if user.None? || !user.value.isAdmin then AccessDenied else Dashboard
  }
}
