/** The flat form both pet modals edit, and the two conversions between it
    and a Pet: assembling a Pet on submit and filling the form from a Pet
    that was fetched for editing. */
module PetForm {
  import opened Wrappers
  import opened Text
  import opened Numbers
  import opened PetApi

  /** The form's fields: free text for everything but the status, which is
      picked from three buttons. */
  datatype Form = Form(
    name: string,
    categoryId: string,
    categoryName: string,
    photoUrls: string,
    tagId: string,
    tagName: string,
    status: Status)

  /** The form as first shown and as left by closing a modal. */
  const Blank: Form := Form("", "", "", "", "", "", Available)

  /** The text fields `handleFormChange` can be asked to set. */
  datatype Field = Name | CategoryId | CategoryName | PhotoUrls | TagId | TagName

  function Get(f: Form, field: Field): string {
    match field
    case Name => f.name
    case CategoryId => f.categoryId
    case CategoryName => f.categoryName
    case PhotoUrls => f.photoUrls
    case TagId => f.tagId
    case TagName => f.tagName
  }

  /** `handleFormChange(field, value)` on a text field: that field now holds
      `value` and every other field, the status included, is as it was. */
  function WithField(f: Form, field: Field, value: string): (r: Form)
    ensures Get(r, field) == value
    ensures forall other :: other != field ==> Get(r, other) == Get(f, other)
    ensures r.status == f.status
  {
    match field
    case Name => f.(name := value)
    case CategoryId => f.(categoryId := value)
    case CategoryName => f.(categoryName := value)
    case PhotoUrls => f.(photoUrls := value)
    case TagId => f.(tagId := value)
    case TagName => f.(tagName := value)
  }

  /** `handleFormChange('status', s)` from one of the status buttons: the
      status changes and no text field does. */
  function WithStatus(f: Form, status: Status): (r: Form)
    ensures r.status == status
    ensures forall field :: Get(r, field) == Get(f, field)
  {
    f.(status := status)
  }

  /** The only validation either modal performs: the name must not be blank
      once trimmed. */
  predicate CanSubmit(f: Form)
    ensures CanSubmit(f) <==> exists i :: 0 <= i < |f.name| && !IsSpace(f.name[i])
  {
    BlankIffAllSpace(f.name);
    !IsBlank(f.name)
  }

  /** Trims every piece. */
  function TrimAll(parts: seq<string>): (r: seq<string>)
    ensures |r| == |parts|
    ensures forall i :: 0 <= i < |r| ==> r[i] == Trim(parts[i])
  {
    if parts == [] then [] else [Trim(parts[0])] + TrimAll(parts[1..])
  }

  /** The photo URL list typed into the form: nothing for an empty field,
      otherwise one URL per comma-separated piece (one more than there are
      commas), each with its surrounding whitespace removed, so that no URL
      holds a comma or begins or ends with whitespace. */
  function BuildPhotoUrls(field: string): (r: seq<string>)
    ensures field == "" ==> r == []
    ensures field != "" ==> |r| == Count(field, ',') + 1
    ensures field != "" ==> forall i :: 0 <= i < |r| ==> r[i] == Trim(Split(field, ',')[i])
    ensures forall i :: 0 <= i < |r| ==> ',' !in r[i] && Trim(r[i]) == r[i]
  {
    if field == "" then []
    else
      var pieces := Split(field, ',');
      var r := TrimAll(pieces);
      TrimmedPieces(pieces, r);
      r
  }

  lemma TrimmedPieces(pieces: seq<string>, r: seq<string>)
    requires |r| == |pieces|
    requires forall i :: 0 <= i < |r| ==> ',' !in pieces[i] && r[i] == Trim(pieces[i])
    ensures forall i :: 0 <= i < |r| ==> ',' !in r[i] && Trim(r[i]) == r[i]
  {
    forall i | 0 <= i < |r|
      ensures ',' !in r[i] && Trim(r[i]) == r[i]
    {
      TrimKeepsAbsent(pieces[i], ',');
      TrimIdempotent(pieces[i]);
    }
  }

  /** `s ? Number(s) : undefined`. */
  function NumberField(s: string): Option<Number> {
    if s == "" then None else Some(ToNumber(s))
  }

  /** `s || undefined`. */
  function TextField(s: string): Option<string> {
    if s == "" then None else Some(s)
  }

  /** The category typed into the form: present exactly when its id or its
      name was typed, with an id exactly when an id was typed and a name
      exactly when a name was typed. */
  function BuildCategory(idText: string, nameText: string): (c: Option<Category>)
    ensures c.Some? <==> idText != "" || nameText != ""
    ensures c.Some? ==> (c.value.id.Some? <==> idText != "") && (c.value.name.Some? <==> nameText != "")
    ensures c.Some? && c.value.id.Some? ==> c.value.id.value == ToNumber(idText)
    ensures c.Some? && c.value.name.Some? ==> c.value.name.value == nameText
  {
    if nameText != "" || idText != "" then Some(Category(NumberField(idText), TextField(nameText))) else None
  }

  /** The tag list typed into the form: a single tag exactly when its id or
      its name was typed, with an id and a name under the same conditions as
      the category's; otherwise no tag list at all. */
  function BuildTags(idText: string, nameText: string): (ts: Option<seq<Tag>>)
    ensures ts.Some? <==> idText != "" || nameText != ""
    ensures ts.Some? ==> |ts.value| == 1
    ensures ts.Some? ==> (ts.value[0].id.Some? <==> idText != "") && (ts.value[0].name.Some? <==> nameText != "")
    ensures ts.Some? && ts.value[0].id.Some? ==> ts.value[0].id.value == ToNumber(idText)
    ensures ts.Some? && ts.value[0].name.Some? ==> ts.value[0].name.value == nameText
  {
    if nameText != "" || idText != "" then Some([Tag(NumberField(idText), TextField(nameText))]) else None
  }

  /** The Pet a modal submits: it carries the given id, the form's name as
      typed (not trimmed) and its status, and at most one tag. */
  function BuildPet(f: Form, id: nat): (p: Pet)
    ensures p.id == Some(id) && p.name == f.name && p.status == Some(f.status)
    ensures p.photoUrls == BuildPhotoUrls(f.photoUrls)
    ensures p.category == BuildCategory(f.categoryId, f.categoryName)
    ensures p.tags == BuildTags(f.tagId, f.tagName)
    ensures p.tags.Some? ==> |p.tags.value| == 1
  {
    Pet(Some(id), f.name, BuildCategory(f.categoryId, f.categoryName), BuildPhotoUrls(f.photoUrls),
        BuildTags(f.tagId, f.tagName), Some(f.status))
  }

  function OptionalNumberText(x: Option<Number>): string {
    if x.Some? then NumberToString(x.value) else ""
  }

  function OptionalText(s: Option<string>): string {
    if s.Some? then s.value else ""
  }

  /** The form the update modal shows for a fetched pet: its URLs joined by
      ", ", its category's id and name as text, only its first tag, and
      `available` when it has no status. */
  function LoadPet(p: Pet): (f: Form)
    ensures f.name == p.name
    ensures f.status == (if p.status.Some? then p.status.value else Available)
    ensures f.photoUrls == Join(p.photoUrls, ", ")
    ensures p.photoUrls == [] ==> f.photoUrls == ""
    ensures f.categoryId == (if p.category.Some? then OptionalNumberText(p.category.value.id) else "")
    ensures f.categoryName == (if p.category.Some? then OptionalText(p.category.value.name) else "")
    ensures p.tags.Some? && |p.tags.value| > 0 ==>
              f.tagId == OptionalNumberText(p.tags.value[0].id) && f.tagName == OptionalText(p.tags.value[0].name)
    ensures p.tags.None? || p.tags == Some([]) ==> f.tagId == "" && f.tagName == ""
  {
    var category := if p.category.Some? then p.category.value else Category(None, None);
    var tag := if p.tags.Some? && |p.tags.value| > 0 then p.tags.value[0] else Tag(None, None);
    Form(
      p.name,
      OptionalNumberText(category.id),
      OptionalText(category.name),
      Join(p.photoUrls, ", "),
      OptionalNumberText(tag.id),
      OptionalText(tag.name),
      p.status.GetOr(Available))
  }

  /** Only the first tag reaches the form: tags after it change nothing. */
  lemma LoadReadsFirstTagOnly(p: Pet, first: Tag, rest: seq<Tag>)
    ensures LoadPet(p.(tags := Some([first] + rest))) == LoadPet(p.(tags := Some([first])))
  {
  }

  /** URL lists that survive joining with ", " and splitting again: no URL
      holds a comma or has surrounding whitespace, and the list is not the
      single empty URL (which joins to the empty field). */
  predicate CanonicalUrls(urls: seq<string>) {
    urls != [""] && forall i :: 0 <= i < |urls| ==> ',' !in urls[i] && Trim(urls[i]) == urls[i]
  }

  /** An id/name pair the form can reproduce: not an empty name, and not
      both parts absent. */
  predicate CanonicalEntry(id: Option<Number>, name: Option<string>) {
    name != Some("") && (id.Some? || name.Some?)
  }

  /** The pets that loading into the form and building again reproduce. */
  predicate Canonical(p: Pet) {
    && CanonicalUrls(p.photoUrls)
    && (p.category.Some? ==> CanonicalEntry(p.category.value.id, p.category.value.name))
    && (p.tags.Some? ==> |p.tags.value| == 1 && CanonicalEntry(p.tags.value[0].id, p.tags.value[0].name))
    && p.status.Some?
  }

  /** Splitting a ", "-join on commas gives the first URL and then each
      following URL with the one leading space the separator left. */
  lemma {:induction false} SplitCommaSpaceJoin(urls: seq<string>)
    requires |urls| >= 1
    requires forall i :: 0 <= i < |urls| ==> ',' !in urls[i]
    ensures |Split(Join(urls, ", "), ',')| == |urls|
    ensures Split(Join(urls, ", "), ',')[0] == urls[0]
    ensures forall i :: 1 <= i < |urls| ==> Split(Join(urls, ", "), ',')[i] == " " + urls[i]
  {
    if |urls| == 1 {
      SplitAfterFreePrefix(urls[0], [], ',');
      assert urls[0] + [] == urls[0];
    } else {
      var tail := Join(urls[1..], ", ");
      var rest := Split(tail, ',');
      SplitCommaSpaceJoin(urls[1..]);
      assert Join(urls, ", ") == urls[0] + ([','] + (" " + tail));
      SplitAfterFreePrefix(urls[0], [','] + (" " + tail), ',');
      SplitAfterSeparator(" " + tail, ',');
      SplitAfterFreePrefix(" ", tail, ',');
      var after := Split(" " + tail, ',');
      assert after == [" " + rest[0]] + rest[1..];
      var whole := Split(Join(urls, ", "), ',');
      assert whole == [urls[0] + []] + ([[]] + after)[1..];
      assert ([[]] + after)[1..] == after;
      assert urls[0] + [] == urls[0];
      forall i | 1 <= i < |urls|
        ensures whole[i] == " " + urls[i]
      {
        if i > 1 {
          assert whole[i] == after[i - 1] == rest[i - 1];
        }
      }
    }
  }

  /** Trimming the pieces of a split ", "-join gives back the URLs when
      each URL was already trimmed. */
  lemma TrimSpacedPieces(urls: seq<string>, pieces: seq<string>)
    requires |pieces| == |urls| >= 1 && pieces[0] == urls[0]
    requires forall i :: 1 <= i < |urls| ==> pieces[i] == " " + urls[i]
    requires forall i :: 0 <= i < |urls| ==> Trim(urls[i]) == urls[i]
    ensures TrimAll(pieces) == urls
  {
    var r := TrimAll(pieces);
    forall i | 0 <= i < |urls|
      ensures r[i] == urls[i]
    {
      if i > 0 {
        TrimSpacedPiece(urls[i]);
      }
    }
    assert |r| == |urls|;
  }

  /** One piece after the first: trimming drops the separator's space. */
  lemma TrimSpacedPiece(url: string)
    requires Trim(url) == url
    ensures Trim(" " + url) == url
  {
    assert " " + url == [' '] + url;
    TrimLeadingSpace(' ', url);
  }

  /** Photo URL round trip: loading a canonical URL list into the form and
      building it back gives the same list. */
  lemma {:induction false} PhotoUrlsRoundTrip(urls: seq<string>)
    requires CanonicalUrls(urls)
    ensures BuildPhotoUrls(Join(urls, ", ")) == urls
  {
    var field := Join(urls, ", ");
    if urls != [] {
      if |urls| == 1 {
        assert field == urls[0];
      } else {
        assert field == urls[0] + ", " + Join(urls[1..], ", ");
      }
      assert field != "";
      SplitCommaSpaceJoin(urls);
      TrimSpacedPieces(urls, Split(field, ','));
    }
  }

  /** An id/name pair of a canonical entry survives the form. */
  lemma EntryRoundTrip(id: Option<Number>, name: Option<string>)
    requires CanonicalEntry(id, name)
    ensures NumberField(OptionalNumberText(id)) == id
    ensures TextField(OptionalText(name)) == name
  {
    if id.Some? {
      NumberRoundTrip(id.value);
    }
  }

  /** Load-then-build round trip: opening a canonical pet in the update
      modal and submitting it untouched sends the same pet, under the id the
      modal was opened for. */
  lemma LoadThenBuild(p: Pet, id: nat)
    requires Canonical(p)
    ensures BuildPet(LoadPet(p), id) == p.(id := Some(id))
  {
    PhotoUrlsRoundTrip(p.photoUrls);
    if p.category.Some? {
      EntryRoundTrip(p.category.value.id, p.category.value.name);
    }
    if p.tags.Some? {
      EntryRoundTrip(p.tags.value[0].id, p.tags.value[0].name);
      assert p.tags.value == [p.tags.value[0]];
    }
  }

  /** Every pet a modal builds is canonical, unless the URL field is
      non-empty but blank: that field builds the list `[""]`. */
  lemma {:induction false} BuildIsCanonical(f: Form, id: nat)
    requires f.photoUrls == "" || !IsBlank(f.photoUrls)
    ensures Canonical(BuildPet(f, id))
  {
    if f.photoUrls != "" {
      var pieces := Split(f.photoUrls, ',');
      JoinSplit(f.photoUrls, ',');
      if |pieces| == 1 {
        assert f.photoUrls == pieces[0];
      }
    }
  }

  /** Saving a pet, reopening it in the update modal and saving again
      without edits sends the same pet (under the second id). */
  lemma ResubmitIsStable(f: Form, id: nat, id': nat)
    requires f.photoUrls == "" || !IsBlank(f.photoUrls)
    ensures BuildPet(LoadPet(BuildPet(f, id)), id') == BuildPet(f, id')
  {
    BuildIsCanonical(f, id);
    LoadThenBuild(BuildPet(f, id), id');
  }

  /** The single-blank-URL exception is real: a URL field of one space
      builds `[""]`, which loads back as an empty field and then builds
      `[]`. */
  lemma BlankUrlFieldIsNotStable()
    ensures BuildPhotoUrls(" ") == [""]
    ensures BuildPhotoUrls(Join(BuildPhotoUrls(" "), ", ")) == []
  {
    var rest := Split(" "[1..], ',');
    assert " "[1..] == "" && rest == [""];
    assert [' '] + rest[0] == " " && rest[1..] == [];
    assert Split(" ", ',') == [" "];
    assert Trim(" ") == "";
  }
}
