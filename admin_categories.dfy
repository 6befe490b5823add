// The category manager of the admin panel (public/js/admin-categories.js): the checks an
// uploaded icon goes through, the record `saveCategory()` builds, and switching a
// category on and off.
module AdminCategories {
  import opened Js
  import opened Data

  const NameRequiredMessage: string := "يرجى إدخال اسم القسم"

  /** The folder icon a category gets when its icon field is empty. */
  const DefaultIcon: string := "<svg xmlns=\"http://www.w3.org/2000/svg\" width=\"24\" height=\"24\" viewBox=\"0 0 24 24\" fill=\"none\" stroke=\"currentColor\" stroke-width=\"2\" stroke-linecap=\"round\" stroke-linejoin=\"round\"><path d=\"M22 19a2 2 0 0 1-2 2H4a2 2 0 0 1-2-2V5a2 2 0 0 1 2-2h5l2 3h9a2 2 0 0 1 2 2z\"></path></svg>"

  // ---------------------------------------------------------------- icon upload

  /** A chosen file: its MIME type and its name. */
  datatype IconFile = IconFile(mimeType: string, name: string)

  /** How an icon upload ends: no file, a file that is not SVG, content without an SVG
      element, or content handed on to the SVG cleaner. */
  datatype Upload = NoFile | WrongType | NotSvg | Accepted(content: string)

  /** The change handler's file check. */
  predicate TypeAccepted(f: IconFile) {
    f.mimeType == "image/svg+xml" || EndsWith(ToLower(f.name), ".svg")
  }

  /** The reader's content check. */
  predicate ContentAccepted(content: string) {
    StartsWith(Trim(content), "<svg") || Contains(content, "<svg")
  }

  /** The upload handler up to the SVG cleaner. */
  function CheckUpload(file: Option<IconFile>, content: string): Upload {
    if file.None? then NoFile
    else if !TypeAccepted(file.value) then WrongType
    else if !ContentAccepted(content) then NotSvg
    else Accepted(content)
  }

  /** The trimmed text is a piece of the text, so the `startsWith` test adds nothing:
      content passes exactly when it contains `<svg` somewhere. */
  lemma ContentAcceptedMeaning(content: string)
    ensures ContentAccepted(content) <==> Contains(content, "<svg")
  {
    var t := TrimStart(content);
    TrimStartMeaning(content);
    TrimEndMeaning(t);
    if StartsWith(Trim(content), "<svg") {
      StartsWithContains(Trim(content), "<svg");
      PrefixContains(t, |TrimEnd(t)|, "<svg");
      SuffixContains(content, |content| - |t|, "<svg");
    }
  }

  /** An upload is accepted exactly when a file was chosen whose type is SVG or whose
      name ends in `.svg` in any letter case, and whose content contains `<svg`. */
  lemma CheckUploadCases(file: Option<IconFile>, content: string)
    ensures CheckUpload(file, content).Accepted? <==>
      file.Some? && TypeAccepted(file.value) && Contains(content, "<svg")
    ensures CheckUpload(file, content).Accepted? ==> CheckUpload(file, content).content == content
    ensures file.Some? && file.value.mimeType == "image/svg+xml" ==> !CheckUpload(file, content).WrongType?
  {
    ContentAcceptedMeaning(content);
  }

  // ---------------------------------------------------------------- saving a category

  /** What the category form holds when it is submitted. */
  datatype CategoryForm = CategoryForm(id: string, nameText: string, iconText: string)

  /** `categoryIcon.value || DefaultIcon`. */
  function IconOf(form: CategoryForm): string {
    if form.iconText != "" then form.iconText else DefaultIcon
  }

  /** `saveCategory()`: the trimmed name is required; an edit sends the id, the name,
      the icon and the `active` of the category with that id (compared loosely), `true`
      when there is none; a new category is active and goes after the ones held. */
  function SaveCategory(form: CategoryForm, categories: seq<Value>): SaveOutcome {
    var name := Trim(form.nameText);
    var icon := IconOf(form);
    if name == "" then Invalid(NameRequiredMessage)
    else if form.id != "" then
      var k := IndexOfLooseId(categories, Str(form.id));
      var isActive := if k == -1 then Bool(true) else Get(categories[k], "active");
      Update(Obj(map["id" := ParseIntStr(form.id), "name" := Str(name), "icon" := Str(icon), "active" := isActive]))
    else
      Create(Obj(map["name" := Str(name), "icon" := Str(icon), "order" := Num((|categories| + 1) as real),
                     "active" := Bool(true)]))
  }

  /** A blank name is refused before anything is saved; otherwise the id field alone
      decides between an edit and a creation. */
  lemma SaveCategoryCases(form: CategoryForm, categories: seq<Value>)
    ensures SaveCategory(form, categories).Invalid? <==> Trim(form.nameText) == ""
    ensures SaveCategory(form, categories).Invalid? ==> SaveCategory(form, categories).message == NameRequiredMessage
    ensures SaveCategory(form, categories).Update? <==> Trim(form.nameText) != "" && form.id != ""
  {
  }

  /** Every saved category carries the trimmed name and the icon, the folder icon when
      none was given. */
  lemma SavedCategoryIcon(form: CategoryForm, categories: seq<Value>)
    requires !SaveCategory(form, categories).Invalid?
    ensures Get(SaveCategory(form, categories).record, "name") == Str(Trim(form.nameText))
    ensures Get(SaveCategory(form, categories).record, "icon") == Str(if form.iconText == "" then DefaultIcon else form.iconText)
  {
  }

  /** An edit sends exactly the id, the name, the icon and `active`, so the category's
      order is not part of it; `active` is the edited category's own, or `true` when no
      held category has that id. */
  lemma EditedCategory(form: CategoryForm, categories: seq<Value>)
    requires SaveCategory(form, categories).Update?
    ensures var r := SaveCategory(form, categories).record;
      && r.Obj? && r.props.Keys == {"id", "name", "icon", "active"}
      && Get(r, "id") == ParseIntStr(form.id)
      && var k := IndexOfLooseId(categories, Str(form.id));
         Get(r, "active") == (if k == -1 then Bool(true) else Get(categories[k], "active"))
  {
  }

  /** A new category is active and ordered after the categories already held. */
  lemma NewCategory(form: CategoryForm, categories: seq<Value>)
    requires SaveCategory(form, categories).Create?
    ensures var r := SaveCategory(form, categories).record;
      && Get(r, "active") == Bool(true)
      && Get(r, "order") == Num((|categories| + 1) as real)
      && "id" !in Props(r)
  {
  }
}
