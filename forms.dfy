/**
 * Form-submission tracking: which forms get a submit handler, the handler's
 * once-only flag, and which fields of a submitted form are reported.
 *
 * The DOM is not modelled: a form is its id, its `<input>` elements and the
 * entries `FormData` yields for it, in document order.
 */
module Forms {
  import opened Values
  import opened Strings

  /** An `<input>` element: its `type` and `name` attributes. */
  datatype Input = Input(kind: string, name: string)

  /** A `FormData` entry value: text, or a file (anything but a string). */
  datatype EntryValue = Text(s: string) | File

  /** A form as the tracker sees it. */
  datatype Form = Form(id: string, inputs: seq<Input>, entries: seq<(string, EntryValue)>)

  /** The field names that are always withheld. */
  const SENSITIVE_FIELD_NAMES: seq<string> := ["ccn", "cvv", "password", "pin", "secret", "token"]

  /** `names.map((p) => p.toLowerCase())`. */
  function LowerAll(names: seq<string>): (r: seq<string>)
    ensures |r| == |names|
    ensures forall i :: 0 <= i < |names| ==> r[i] == ToLower(names[i])
  {
    seq(|names|, i requires 0 <= i < |names| => ToLower(names[i]))
  }

  /** The names of the password inputs, in document order, as written. */
  function PasswordNames(inputs: seq<Input>): (r: seq<string>)
    ensures forall n :: n in r <==> exists i :: 0 <= i < |inputs| && inputs[i].kind == "password" && inputs[i].name == n
  {
    if inputs == [] then []
    else
      var last := inputs[|inputs| - 1];
      PasswordNames(inputs[..|inputs| - 1]) + (if last.kind == "password" then [last.name] else [])
  }

  /** The first half of `handleFormSubmitted`: the lower-cased fixed and
      configured names, then the names of password inputs pushed one by one. */
  method ExcludedProperties(configured: seq<string>, inputs: seq<Input>) returns (excluded: seq<string>)
    ensures excluded == LowerAll(SENSITIVE_FIELD_NAMES + configured) + PasswordNames(inputs)
  {
    excluded := LowerAll(SENSITIVE_FIELD_NAMES + configured);
    var i := 0;
    while i < |inputs|
      invariant 0 <= i <= |inputs|
      invariant excluded == LowerAll(SENSITIVE_FIELD_NAMES + configured) + PasswordNames(inputs[..i])
    {
      assert inputs[..i + 1][..i] == inputs[..i];
      if inputs[i].kind == "password" {
        excluded := excluded + [inputs[i].name];
      }
      i := i + 1;
    }
    assert inputs[..i] == inputs;
  }

  /** The text entries whose lower-cased key is not excluded, in order. */
  function Reported(entries: seq<(string, EntryValue)>, excluded: seq<string>): (r: seq<(string, string)>)
    ensures forall e :: e in r <==> (e.0, Text(e.1)) in entries && ToLower(e.0) !in excluded
  {
    if entries == [] then []
    else
      var last := entries[|entries| - 1];
      var prefix := entries[..|entries| - 1];
      assert entries == prefix + [last];
      Reported(prefix, excluded) +
        (if last.1.Text? && ToLower(last.0) !in excluded then [(last.0, last.1.s)] else [])
  }

  /** The `formData` object handed to the submit callback. */
  function FormDataObject(entries: seq<(string, EntryValue)>, excluded: seq<string>): map<string, string> {
    FromEntries(Reported(entries, excluded))
  }

  /** `i` is the last text entry with key `k`. */
  predicate IsLastText(entries: seq<(string, EntryValue)>, k: string, i: int) {
    0 <= i < |entries| && entries[i].0 == k && entries[i].1.Text? &&
    forall j :: i < j < |entries| && entries[j].0 == k ==> entries[j].1.File?
  }

  /** A key is reported exactly when some text entry carries it and its
      lower-cased form is not excluded; its value is that of its last text
      entry. */
  lemma {:induction false} FormDataContents(entries: seq<(string, EntryValue)>, excluded: seq<string>, k: string, i: int)
    requires IsLastText(entries, k, i)
    ensures k in FormDataObject(entries, excluded) <==> ToLower(k) !in excluded
    ensures ToLower(k) !in excluded ==> FormDataObject(entries, excluded)[k] == entries[i].1.s
  {
    var n := |entries|;
    var prefix := entries[..n - 1];
    var last := entries[n - 1];
    assert entries == prefix + [last];
    var r := Reported(entries, excluded);
    if i < n - 1 {
      assert IsLastText(prefix, k, i);
      FormDataContents(prefix, excluded, k, i);
      if last.1.Text? && ToLower(last.0) !in excluded {
        assert last.0 != k;
        FromEntriesSnoc(Reported(prefix, excluded), (last.0, last.1.s));
      } else {
        assert r == Reported(prefix, excluded);
      }
    } else if ToLower(k) !in excluded {
      FromEntriesSnoc(Reported(prefix, excluded), (last.0, last.1.s));
    } else {
      assert (k, entries[i].1.s) !in r;
      assert r == Reported(prefix, excluded);
    }
  }

  /** No field whose name is one of the fixed sensitive names, in any case,
      is ever reported. */
  lemma SensitiveNeverReported(f: Form, configured: seq<string>, k: string)
    requires ToLower(k) in LowerAll(SENSITIVE_FIELD_NAMES)
    ensures k !in FormDataObject(f.entries, LowerAll(SENSITIVE_FIELD_NAMES + configured) + PasswordNames(f.inputs))
  {
    var excluded := LowerAll(SENSITIVE_FIELD_NAMES + configured) + PasswordNames(f.inputs);
    var r := Reported(f.entries, excluded);
    var j :| 0 <= j < 6 && LowerAll(SENSITIVE_FIELD_NAMES)[j] == ToLower(k);
    assert excluded[j] == ToLower(k);
  }

  /** A field is hidden exactly when its lower-cased name is a fixed or
      configured name (lower-cased), or is the name of a password input as
      written. So a password input whose name has an upper-case letter does
      not hide its own field. */
  lemma FieldHiddenIff(f: Form, configured: seq<string>, k: string, i: int)
    requires IsLastText(f.entries, k, i)
    ensures var data := FormDataObject(f.entries, LowerAll(SENSITIVE_FIELD_NAMES + configured) + PasswordNames(f.inputs));
      k !in data <==>
        ToLower(k) in LowerAll(SENSITIVE_FIELD_NAMES + configured) ||
        exists j :: 0 <= j < |f.inputs| && f.inputs[j].kind == "password" && f.inputs[j].name == ToLower(k)
  {
    FormDataContents(f.entries, LowerAll(SENSITIVE_FIELD_NAMES + configured) + PasswordNames(f.inputs), k, i);
  }

  /** The listener registered on one form, with its once-only flag. */
  class SubmitHandler {
    const form: Form
    const excludedInputFieldNames: seq<string>
    var called: bool

    constructor (form: Form, excludedInputFieldNames: seq<string>)
      ensures this.form == form && this.excludedInputFieldNames == excludedInputFieldNames
      ensures !called
    {
      this.form := form;
      this.excludedInputFieldNames := excludedInputFieldNames;
      called := false;
    }

    /** A submit event: the first one yields the form id and data to track,
        every later one yields nothing. */
    method Submit() returns (tracked: Option<(string, map<string, string>)>)
      modifies this
      ensures called
      ensures old(called) ==> tracked.None?
      ensures !old(called) ==> tracked == Some((form.id,
        FormDataObject(form.entries, LowerAll(SENSITIVE_FIELD_NAMES + excludedInputFieldNames) + PasswordNames(form.inputs))))
    {
      if called {
        return None;
      }
      called := true;
      var excluded := ExcludedProperties(excludedInputFieldNames, form.inputs);
      tracked := Some((form.id, FormDataObject(form.entries, excluded)));
    }
  }

  /** The tracker's configuration. */
  class FormTracker {
    const excludedFormIds: seq<string>
    const excludedInputFieldNames: seq<string>

    constructor (excludedFormIds: seq<string>, excludedInputFieldNames: seq<string>)
      ensures this.excludedFormIds == excludedFormIds
      ensures this.excludedInputFieldNames == excludedInputFieldNames
    {
      this.excludedFormIds := excludedFormIds;
      this.excludedInputFieldNames := excludedInputFieldNames;
    }

    /** `registerHandler`: an excluded form gets no handler, any other form a
        fresh handler that has not run yet. */
    method RegisterHandler(form: Form) returns (h: Option<SubmitHandler>)
      ensures h.None? <==> form.id in excludedFormIds
      ensures h.Some? ==> fresh(h.value) && h.value.form == form && !h.value.called
      ensures h.Some? ==> h.value.excludedInputFieldNames == excludedInputFieldNames
    {
      if form.id in excludedFormIds {
        return None;
      }
      var handler := new SubmitHandler(form, excludedInputFieldNames);
      h := Some(handler);
    }

    /** `init`: without a document there are no forms to find; otherwise
        every form already in the document is registered, in document
        order. Forms added later reach `RegisterHandler` one by one. */
    method Init(forms: seq<Form>, hasDocument: bool) returns (handlers: seq<Option<SubmitHandler>>)
      ensures !hasDocument ==> handlers == []
      ensures hasDocument ==> |handlers| == |forms|
      ensures forall i :: 0 <= i < |handlers| ==> (handlers[i].None? <==> forms[i].id in excludedFormIds)
      ensures forall i :: 0 <= i < |handlers| && handlers[i].Some? ==>
        fresh(handlers[i].value) && handlers[i].value.form == forms[i] && !handlers[i].value.called &&
        handlers[i].value.excludedInputFieldNames == excludedInputFieldNames
    {
      handlers := [];
      if !hasDocument {
        return;
      }
      var i := 0;
      while i < |forms|
        invariant 0 <= i <= |forms| && |handlers| == i
        invariant forall j :: 0 <= j < i ==> (handlers[j].None? <==> forms[j].id in excludedFormIds)
        invariant forall j :: 0 <= j < i && handlers[j].Some? ==>
          fresh(handlers[j].value) && handlers[j].value.form == forms[j] && !handlers[j].value.called &&
          handlers[j].value.excludedInputFieldNames == excludedInputFieldNames
      {
        var h := RegisterHandler(forms[i]);
        handlers := handlers + [h];
        i := i + 1;
      }
    }
  }

  /** Two submits of the same form track once. */
  method SubmitTwice(tracker: FormTracker, form: Form) returns (first: Option<(string, map<string, string>)>, second: Option<(string, map<string, string>)>)
    ensures form.id in tracker.excludedFormIds ==> first.None? && second.None?
    ensures form.id !in tracker.excludedFormIds ==> first.Some? && first.value.0 == form.id && second.None?
  {
    var h := tracker.RegisterHandler(form);
    if h.None? {
      return None, None;
    }
    first := h.value.Submit();
    second := h.value.Submit();
  }
}
