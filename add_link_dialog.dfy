/** The add/edit link dialog: its form schema, the add-versus-edit merge, and the reset on open. */
module AddLinkDialog {
  import opened Types
  import opened Schema

  const LabelTooShort: string := "Label must be at least 3 characters."
  const UrlInvalid: string := "Please enter a valid URL."
  const CategoryEmpty: string := "Category cannot be empty."

  /** The all-empty form. */
  const EmptyForm: LinkDraft := LinkDraft("", "", "", Some(""))

  /** The check on each schema field; `isUrl` stands for zod's `.url()` check; any group is accepted. */
  function LabelIssues(v: LinkDraft): seq<Issue> {
    MinLength("label", v.labelText, 3, LabelTooShort)
  }

  function UrlIssues(v: LinkDraft, isUrl: string -> bool): seq<Issue> {
    Check("url", isUrl(v.url), UrlInvalid)
  }

  function CategoryIssues(v: LinkDraft): seq<Issue> {
    MinLength("category", v.category, 1, CategoryEmpty)
  }

  /** Every issue `formSchema` reports, in field order. */
  function Issues(v: LinkDraft, isUrl: string -> bool): seq<Issue> {
    LabelIssues(v) + UrlIssues(v, isUrl) + CategoryIssues(v)
  }

  /** `formSchema.safeParse`: accepted values come through unchanged; each failing field is reported. */
  function Parse(v: LinkDraft, isUrl: string -> bool): (r: Parsed<LinkDraft>)
    ensures r.Parsed? <==> |v.labelText| >= 3 && isUrl(v.url) && v.category != ""
    ensures r.Parsed? ==> r.data == v
    ensures r.Rejected? ==>
      && ("label" in Paths(r.issues) <==> |v.labelText| < 3)
      && ("url" in Paths(r.issues) <==> !isUrl(v.url))
      && ("category" in Paths(r.issues) <==> v.category == "")
  {
    var issues := Issues(v, isUrl);
    PathsAppend(LabelIssues(v), UrlIssues(v, isUrl));
    PathsAppend(LabelIssues(v) + UrlIssues(v, isUrl), CategoryIssues(v));
    if issues == [] then Parsed(v) else Rejected(issues)
  }

  /**
   * The issues shown after the user changes the values from `before` to `after` once a submit has
   * been attempted: each changed field is checked again on its own (`reValidateMode: "onChange"`),
   * and every unchanged field keeps what it showed.
   */
  function Revalidate(shown: seq<Issue>, before: LinkDraft, after: LinkDraft, isUrl: string -> bool): (r: seq<Issue>)
    ensures OnPath(r, "label") ==
      if after.labelText != before.labelText then LabelIssues(after) else OnPath(shown, "label")
    ensures OnPath(r, "url") ==
      if after.url != before.url then UrlIssues(after, isUrl) else OnPath(shown, "url")
    ensures OnPath(r, "category") ==
      if after.category != before.category then CategoryIssues(after) else OnPath(shown, "category")
  {
    var a := Refresh(shown, "label", after.labelText != before.labelText, LabelIssues(after));
    var b := Refresh(shown, "url", after.url != before.url, UrlIssues(after, isUrl));
    var c := Refresh(shown, "category", after.category != before.category, CategoryIssues(after));
    OnPathOfThree(a, "label", b, "url", c, "category", "label");
    OnPathOfThree(a, "label", b, "url", c, "category", "url");
    OnPathOfThree(a, "label", b, "url", c, "category", "category");
    a + b + c
  }

  /** Once a rejected submit has shown every field's issues, each later edit shows exactly the schema's issues for the new values. */
  lemma RevalidateAfterRejection(before: LinkDraft, after: LinkDraft, isUrl: string -> bool)
    ensures Revalidate(Issues(before, isUrl), before, after, isUrl) == Issues(after, isUrl)
  {
    var shown := Issues(before, isUrl);
    OnPathOfThree(LabelIssues(before), "label", UrlIssues(before, isUrl), "url", CategoryIssues(before), "category", "label");
    OnPathOfThree(LabelIssues(before), "label", UrlIssues(before, isUrl), "url", CategoryIssues(before), "category", "url");
    OnPathOfThree(LabelIssues(before), "label", UrlIssues(before, isUrl), "url", CategoryIssues(before), "category", "category");
    assert Refresh(shown, "label", after.labelText != before.labelText, LabelIssues(after)) == LabelIssues(after);
    assert Refresh(shown, "url", after.url != before.url, UrlIssues(after, isUrl)) == UrlIssues(after, isUrl);
    assert Refresh(shown, "category", after.category != before.category, CategoryIssues(after)) == CategoryIssues(after);
  }

  /** The group never affects acceptance. */
  lemma GroupIrrelevant(v: LinkDraft, isUrl: string -> bool, group: Option<string>)
    ensures Parse(v.(group := group), isUrl).Parsed? == Parse(v, isUrl).Parsed?
  {
  }

  /** The form values a link loads: every schema field; `id` is not one, so parsing drops it. */
  function FormOf(l: Link): LinkDraft {
    LinkDraft(l.labelText, l.url, l.category, l.group)
  }

  /** `{ ...linkToEdit, ...values }`: the form's fields override the link's; the link's id stays. */
  function Merge(linkToEdit: Link, values: LinkDraft): (r: Link)
    ensures r.id == linkToEdit.id
    ensures FormOf(r) == values
  {
    Link(linkToEdit.id, values.labelText, values.url, values.category, values.group)
  }

  /** Saving an edit without changing any field gives back the same link. */
  lemma MergeUnchanged(l: Link)
    ensures Merge(l, FormOf(l)) == l
  {
  }

  /** Editing twice is the same as editing once with the later values. */
  lemma MergeLastWins(l: Link, first: LinkDraft, second: LinkDraft)
    ensures Merge(Merge(l, first), second) == Merge(l, second)
  {
  }

  /** What `onConfirm` receives: `Omit<Link, "id">` when adding, a whole `Link` when editing. */
  datatype Confirmation = Added(draft: LinkDraft) | Edited(link: Link)

  /** `isEditing = !!linkToEdit`. */
  predicate IsEditing(linkToEdit: Option<Link>) {
    linkToEdit.Some?
  }

  /** The record `onSubmit` confirms: editing is decided by `linkToEdit` alone. */
  function Confirm(linkToEdit: Option<Link>, values: LinkDraft): (c: Confirmation)
    ensures c.Edited? <==> IsEditing(linkToEdit)
    ensures c.Edited? ==> c.link.id == linkToEdit.value.id && FormOf(c.link) == values
    ensures c.Added? ==> c.draft == values
  {
    if linkToEdit.Some? then Edited(Merge(linkToEdit.value, values)) else Added(values)
  }

  /** `linkToEdit || { label: "", url: "", category: "", group: "" }`: what the form is reset to. */
  function ResetValues(linkToEdit: Option<Link>): (v: LinkDraft)
    ensures linkToEdit.Some? ==> v == FormOf(linkToEdit.value)
    ensures linkToEdit.None? ==> v == EmptyForm
  {
    match linkToEdit
    case Some(l) => FormOf(l)
    case None => EmptyForm
  }

  /**
   * The dialog: its `linkToEdit` prop, `open` state, the form, and the confirmations sent to `onConfirm`.
   * `submitted` is react-hook-form's `formState.isSubmitted`.
   */
  class Dialog {
    var linkToEdit: Option<Link>
    const isUrl: string -> bool
    /** The form's stored default values: `defaultValues` on the first render, then those of the last `reset(values)`. */
    var defaults: LinkDraft
    var open: bool
    var values: LinkDraft
    var issues: seq<Issue>
    var submitted: bool
    var confirmed: seq<Confirmation>

    constructor (linkToEdit: Option<Link>, isUrl: string -> bool)
      ensures this.linkToEdit == linkToEdit && this.isUrl == isUrl
      ensures defaults == ResetValues(linkToEdit) && values == defaults
      ensures !open && issues == [] && !submitted && confirmed == []
    {
      this.linkToEdit := linkToEdit;
      this.isUrl := isUrl;
      defaults := ResetValues(linkToEdit);
      values := ResetValues(linkToEdit);
      open := false;
      issues := [];
      submitted := false;
      confirmed := [];
    }

    /**
     * `onOpenChange`; when `open` changes to true, the effect calls `form.reset(...)` with the values
     * from `linkToEdit`, which become the stored defaults and clear the issues and the submitted flag.
     */
    method SetOpen(b: bool)
      modifies this
      ensures open == b && linkToEdit == old(linkToEdit) && confirmed == old(confirmed)
      ensures if b && !old(open) then
          values == ResetValues(linkToEdit) && defaults == values && issues == [] && !submitted
        else
          values == old(values) && defaults == old(defaults) && issues == old(issues) && submitted == old(submitted)
    {
      if b != open {
        open := b;
        if open {
          values := ResetValues(linkToEdit);
          defaults, issues, submitted := values, [], false;
        }
      }
    }

    /** A new `linkToEdit` prop; while open, the effect resets the form from it in the same way. */
    method SetLinkToEdit(l: Option<Link>)
      modifies this
      ensures linkToEdit == l && open == old(open) && confirmed == old(confirmed)
      ensures if open && l != old(linkToEdit) then
          values == ResetValues(l) && defaults == values && issues == [] && !submitted
        else
          values == old(values) && defaults == old(defaults) && issues == old(issues) && submitted == old(submitted)
    {
      if l != linkToEdit {
        linkToEdit := l;
        if open {
          values := ResetValues(l);
          defaults, issues, submitted := values, [], false;
        }
      }
    }

    /** The user edits the fields; once a submit has been attempted, each changed field is checked again. */
    method Input(v: LinkDraft)
      modifies this
      ensures values == v && open == old(open) && linkToEdit == old(linkToEdit)
      ensures defaults == old(defaults) && submitted == old(submitted) && confirmed == old(confirmed)
      ensures issues == if old(submitted) then Revalidate(old(issues), old(values), v, isUrl) else old(issues)
    {
      if submitted {
        issues := Revalidate(issues, values, v, isUrl);
      }
      values := v;
    }

    /**
     * `form.handleSubmit(onSubmit)`: confirm valid values as an add or an edit, `form.reset()` to
     * the stored defaults, close. Either way the form counts as submitted afterwards.
     */
    method HandleSubmit() returns (accepted: bool)
      modifies this
      ensures accepted <==> Parse(old(values), isUrl).Parsed?
      ensures linkToEdit == old(linkToEdit) && defaults == old(defaults) && submitted
      ensures accepted ==>
        && confirmed == old(confirmed) + [Confirm(linkToEdit, old(values))]
        && values == defaults && issues == [] && !open
      ensures !accepted ==>
        && confirmed == old(confirmed)
        && values == old(values) && issues == Parse(old(values), isUrl).issues && open == old(open)
    {
      var parsed := Parse(values, isUrl);
      if parsed.Parsed? {
        confirmed := confirmed + [Confirm(linkToEdit, parsed.data)];
        values, issues := defaults, [];
        open := false;
        accepted := true;
      } else {
        issues := parsed.issues;
        accepted := false;
      }
      submitted := true;
    }
  }

  /** Opening the edit dialog of a valid link and saving at once confirms that very link. */
  method SaveUnchangedEdit(l: Link, isUrl: string -> bool) returns (c: Confirmation)
    requires Parse(FormOf(l), isUrl).Parsed?
    ensures c == Edited(l)
  {
    var d := new Dialog(Some(l), isUrl);
    d.SetOpen(true);
    var accepted := d.HandleSubmit();
    c := d.confirmed[0];
    MergeUnchanged(l);
  }

  /**
   * Reopening an add dialog after a submit, accepted or not, shows the empty form and no issues,
   * whatever was typed before.
   */
  method ReopenAfterSubmit(v: LinkDraft, isUrl: string -> bool) returns (shown: LinkDraft, messages: seq<Issue>)
    ensures shown == EmptyForm && messages == []
  {
    var d := new Dialog(None, isUrl);
    d.SetOpen(true);
    d.Input(v);
    var accepted := d.HandleSubmit();
    d.SetOpen(false);
    d.SetOpen(true);
    shown, messages := d.values, d.issues;
  }

  /** In the edit dialog of a link, after a rejected save, whatever the user then types shows exactly the schema's issues for it. */
  method CorrectAfterRejection(l: Link, isUrl: string -> bool, v: LinkDraft) returns (shown: seq<Issue>)
    requires !Parse(FormOf(l), isUrl).Parsed?
    ensures shown == Issues(v, isUrl)
  {
    var d := new Dialog(Some(l), isUrl);
    d.SetOpen(true);
    var accepted := d.HandleSubmit();
    d.Input(v);
    RevalidateAfterRejection(FormOf(l), v, isUrl);
    shown := d.issues;
  }
}
