/**
 * The waitlist form: toggling a checkbox option in one of the two
 * multi-select lists (at most two expectations), the guard of the submit
 * button, the JSON body posted to the webhook, and the submit flow over
 * the `isSubmitting` / `isSuccess` flags.
 */
module Waitlist {

  import opened Wrappers

  /** The two multi-select fields of the form. */
  datatype ListField = Expectations | AiFeatures

  /** The `formData` state record. */
  datatype FormData = FormData(
    contactPerson: string,
    businessName: string,
    phone: string,
    businessType: string,
    capacity: string,
    techBudget: string,
    expectations: seq<string>,
    aiFeatures: seq<string>,
    thoughts: string)

  /** At most two expectations may be chosen. */
  const MaxExpectations: nat := 2

  /** The initial form: every text empty, nothing chosen. */
  const EmptyForm: FormData := FormData("", "", "", "", "", "", [], [], "")

  function Get(f: FormData, field: ListField): seq<string>
  {
    match field
    case Expectations => f.expectations
    case AiFeatures => f.aiFeatures
  }

  /** `{ ...f, [field]: items }` */
  function Put(f: FormData, field: ListField, items: seq<string>): FormData
  {
    match field
    case Expectations => f.(expectations := items)
    case AiFeatures => f.(aiFeatures := items)
  }

  /** The scalar fields of two forms agree. */
  predicate SameText(f: FormData, g: FormData)
  {
    && f.contactPerson == g.contactPerson && f.businessName == g.businessName
    && f.phone == g.phone && f.businessType == g.businessType && f.capacity == g.capacity
    && f.techBudget == g.techBudget && f.thoughts == g.thoughts
  }

  predicate Distinct(s: seq<string>)
  {
    forall i, j :: 0 <= i < j < |s| ==> s[i] != s[j]
  }

  /** `items.filter(item => item !== v)`: every occurrence of v goes, every other element keeps its count. */
  function Without(items: seq<string>, v: string): (r: seq<string>)
    ensures forall x :: x in r <==> x in items && x != v
    ensures forall x :: multiset(r)[x] == if x == v then 0 else multiset(items)[x]
    ensures |r| == |items| - multiset(items)[v]
  {
    if |items| == 0 then []
    else
      assert items == [items[0]] + items[1..];
      if items[0] == v then Without(items[1..], v) else [items[0]] + Without(items[1..], v)
  }

  /** The proposed new list: drop v if present, otherwise append it. */
  function Toggled(items: seq<string>, v: string): seq<string>
  {
    if v in items then Without(items, v) else items + [v]
  }

  /** `handleCheckboxChange(field, v)` as a state updater: the toggled list,
      unless it is the expectations list and would exceed the cap. */
  function Toggle(prev: FormData, field: ListField, v: string): (r: FormData)
    ensures SameText(r, prev)
    ensures forall other :: other != field ==> Get(r, other) == Get(prev, other)
    ensures r == prev || Get(r, field) == Toggled(Get(prev, field), v)
    ensures field == AiFeatures ==> r.aiFeatures == Toggled(prev.aiFeatures, v)
    ensures field == Expectations && |Toggled(prev.expectations, v)| > MaxExpectations ==> r == prev
  {
    var next := Toggled(Get(prev, field), v);
    if field == Expectations && |next| > MaxExpectations then prev else Put(prev, field, next)
  }

  /** Filtering distributes over concatenation, so it keeps the order of what stays. */
  lemma {:induction false} WithoutConcat(a: seq<string>, b: seq<string>, v: string)
    ensures Without(a + b, v) == Without(a, v) + Without(b, v)
  {
    if |a| > 0 {
      assert (a + b)[1..] == a[1..] + b;
      WithoutConcat(a[1..], b, v);
    } else {
      assert a + b == b;
    }
  }

  lemma {:induction false} WithoutAbsent(s: seq<string>, v: string)
    requires v !in s
    ensures Without(s, v) == s
  {
    if |s| > 0 {
      WithoutAbsent(s[1..], v);
      assert s == [s[0]] + s[1..];
    }
  }

  lemma {:induction false} WithoutKeepsDistinct(s: seq<string>, v: string)
    requires Distinct(s)
    ensures Distinct(Without(s, v))
  {
    if |s| > 0 {
      assert Distinct(s[1..]) by {
        forall i, j | 0 <= i < j < |s[1..]| ensures s[1..][i] != s[1..][j] {
          assert s[1..][i] == s[i + 1] && s[1..][j] == s[j + 1];
        }
      }
      WithoutKeepsDistinct(s[1..], v);
      var rest := Without(s[1..], v);
      if s[0] != v {
        assert s[0] !in s[1..];
        assert s[0] !in rest;
        var r := [s[0]] + rest;
        forall i, j | 0 <= i < j < |r| ensures r[i] != r[j] {
          if i == 0 {
            assert r[j] == rest[j - 1];
          } else {
            assert r[i] == rest[i - 1] && r[j] == rest[j - 1];
          }
        }
      }
    }
  }

  /** Toggling a chosen option removes every occurrence of it, and the cap never
      rejects a removal from a list that respects it. */
  lemma ToggleRemoves(prev: FormData, field: ListField, v: string)
    requires v in Get(prev, field)
    requires |prev.expectations| <= MaxExpectations
    ensures Get(Toggle(prev, field, v), field) == Without(Get(prev, field), v)
    ensures v !in Get(Toggle(prev, field, v), field)
  {
  }

  /** Toggling an option that is not chosen appends it at the end, keeping the
      existing order, whenever the cap allows it. */
  lemma ToggleAppends(prev: FormData, field: ListField, v: string)
    requires v !in Get(prev, field)
    requires field == Expectations ==> |prev.expectations| < MaxExpectations
    ensures Get(Toggle(prev, field, v), field) == Get(prev, field) + [v]
  {
  }

  /** The expectations checkbox is disabled when two are chosen and it is not one of them. */
  predicate CheckboxDisabled(f: FormData, v: string)
  {
    |f.expectations| >= MaxExpectations && v !in f.expectations
  }

  /** Starting within the cap, a toggle stays within it, and it is rejected
      exactly when the checkbox it comes from is disabled. */
  lemma ToggleKeepsCap(prev: FormData, field: ListField, v: string)
    requires |prev.expectations| <= MaxExpectations
    ensures |Toggle(prev, field, v).expectations| <= MaxExpectations
    ensures field == Expectations ==> (Toggle(prev, field, v) == prev <==> CheckboxDisabled(prev, v))
  {
    if field == Expectations && v in prev.expectations {
      assert v !in Toggle(prev, field, v).expectations;
    }
  }

  /** Toggling an absent option twice, when the cap allows it, restores the form. */
  lemma ToggleTwice(prev: FormData, field: ListField, v: string)
    requires v !in Get(prev, field)
    requires field == Expectations ==> |prev.expectations| < MaxExpectations
    ensures Toggle(Toggle(prev, field, v), field, v) == prev
  {
    var items := Get(prev, field);
    ToggleAppends(prev, field, v);
    var mid := Toggle(prev, field, v);
    WithoutConcat(items, [v], v);
    WithoutAbsent(items, v);
    assert Without([v], v) == [];
    assert Toggled(Get(mid, field), v) == items;
  }

  /** A list without duplicates stays without duplicates. */
  lemma ToggleKeepsDistinct(prev: FormData, field: ListField, v: string)
    requires Distinct(Get(prev, field))
    ensures Distinct(Get(Toggle(prev, field, v), field))
  {
    var items := Get(prev, field);
    if v in items {
      WithoutKeepsDistinct(items, v);
    }
  }

  /** The submit button's `disabled` attribute. */
  predicate SubmitDisabled(isSubmitting: bool, f: FormData)
  {
    isSubmitting || |f.expectations| == 0 || |f.aiFeatures| == 0
  }

  /** The button follows the choices: disabled on the fresh form, enabled once
      one option of each list is chosen, disabled again when the only
      expectation is unchecked. */
  lemma SubmitGuard(f: FormData, e: string, a: string)
    ensures SubmitDisabled(false, EmptyForm)
    ensures !SubmitDisabled(false, Toggle(Toggle(EmptyForm, Expectations, e), AiFeatures, a))
    ensures f.expectations == [e] ==> SubmitDisabled(false, Toggle(f, Expectations, e))
  {
    ToggleAppends(EmptyForm, Expectations, e);
    ToggleAppends(Toggle(EmptyForm, Expectations, e), AiFeatures, a);
    if f.expectations == [e] {
      ToggleRemoves(f, Expectations, e);
    }
  }

  /** The separator of the two joined list fields. */
  const ListSeparator: string := ", "

  function TotalLength(items: seq<string>): nat
  {
    if |items| == 0 then 0 else |items[0]| + TotalLength(items[1..])
  }

  /** `items.join(sep)`. */
  function Join(items: seq<string>, sep: string): (r: string)
    ensures |r| == TotalLength(items) + (if |items| == 0 then 0 else (|items| - 1) * |sep|)
  {
    if |items| == 0 then ""
    else if |items| == 1 then items[0]
    else items[0] + sep + Join(items[1..], sep)
  }

  /** Appending an item to a non-empty list appends the separator and the item to its join. */
  lemma {:induction false} JoinAppend(items: seq<string>, x: string, sep: string)
    requires |items| > 0
    ensures Join(items + [x], sep) == Join(items, sep) + sep + x
  {
    if |items| > 1 {
      assert (items + [x])[1..] == items[1..] + [x];
      JoinAppend(items[1..], x, sep);
    } else {
      assert items + [x] == [items[0], x];
      assert [items[0], x][1..] == [x];
    }
  }

  /** The JSON body, key by key as posted. */
  type Payload = seq<(string, string)>

  const ContactLabel: string := "İletişim kişisi"
  const BusinessNameLabel: string := "İşletme adı"
  const PhoneLabel: string := "Telefon Numaranız"
  const BusinessTypeLabel: string := "İşletme türünüz nedir?"
  const CapacityLabel: string := "Kaç masa/müşteri kapasitesine sahipsiniz?"
  const BudgetLabel: string := "Ayda ortalama ne kadar teknoloji/yazılım harcaması yapıyorsunuz?"
  const ExpectationsLabel: string := "Bu sistemden beklediğiniz fayda nedir? (2 tane seçin)"
  const AiFeaturesLabel: string := " Hangi yapay zeka özellikleri size en çekici geliyor?"
  const ThoughtsLabel: string := "Düşünceleriniz"
  const SubmittedAtKey: string := "submittedAt"
  const FormModeKey: string := "formMode"
  const FormMode: string := "production"

  const PayloadKeys: seq<string> := [
    ContactLabel, BusinessNameLabel, PhoneLabel, BusinessTypeLabel, CapacityLabel, BudgetLabel,
    ExpectationsLabel, AiFeaturesLabel, ThoughtsLabel, SubmittedAtKey, FormModeKey]

  function Keys(p: Payload): (ks: seq<string>)
    ensures |ks| == |p| && forall i :: 0 <= i < |p| ==> ks[i] == p[i].0
  {
    if |p| == 0 then [] else [p[0].0] + Keys(p[1..])
  }

  /** The value of the first entry with the given key; the body's keys are distinct, so it is the only one. */
  function Lookup(p: Payload, key: string): (r: Option<string>)
    ensures r.Some? <==> exists i :: 0 <= i < |p| && p[i].0 == key
  {
    if |p| == 0 then None
    else if p[0].0 == key then Some(p[0].1)
    else Lookup(p[1..], key)
  }

  /** The body posted by `handleSubmit`; `submittedAt` is the clock's ISO-8601 string. */
  function BuildPayload(f: FormData, submittedAt: string): (p: Payload)
    ensures Keys(p) == PayloadKeys
  {
    [ (ContactLabel, f.contactPerson),
      (BusinessNameLabel, f.businessName),
      (PhoneLabel, f.phone),
      (BusinessTypeLabel, f.businessType),
      (CapacityLabel, f.capacity),
      (BudgetLabel, f.techBudget),
      (ExpectationsLabel, Join(f.expectations, ListSeparator)),
      (AiFeaturesLabel, Join(f.aiFeatures, ListSeparator)),
      (ThoughtsLabel, f.thoughts),
      (SubmittedAtKey, submittedAt),
      (FormModeKey, FormMode) ]
  }

  lemma {:induction false} LookupAt(p: Payload, i: nat)
    requires i < |p|
    requires Distinct(Keys(p))
    ensures Lookup(p, p[i].0) == Some(p[i].1)
  {
    if i > 0 {
      assert Keys(p)[0] != Keys(p)[i];
      assert Distinct(Keys(p[1..])) by {
        var ks := Keys(p[1..]);
        forall a, b | 0 <= a < b < |ks| ensures ks[a] != ks[b] {
          assert ks[a] == Keys(p)[a + 1] && ks[b] == Keys(p)[b + 1];
        }
      }
      LookupAt(p[1..], i - 1);
    }
  }

  lemma PayloadKeysDistinct()
    ensures Distinct(PayloadKeys)
  {
  }

  /** Every key of the body is filled from its own form field; the lists are
      joined with ", ", and the body is marked as production. */
  lemma PayloadFields(f: FormData, submittedAt: string)
    ensures var p := BuildPayload(f, submittedAt);
            && Lookup(p, ContactLabel) == Some(f.contactPerson)
            && Lookup(p, BusinessNameLabel) == Some(f.businessName)
            && Lookup(p, PhoneLabel) == Some(f.phone)
            && Lookup(p, BusinessTypeLabel) == Some(f.businessType)
            && Lookup(p, CapacityLabel) == Some(f.capacity)
            && Lookup(p, BudgetLabel) == Some(f.techBudget)
            && Lookup(p, ExpectationsLabel) == Some(Join(f.expectations, ListSeparator))
            && Lookup(p, AiFeaturesLabel) == Some(Join(f.aiFeatures, ListSeparator))
            && Lookup(p, ThoughtsLabel) == Some(f.thoughts)
            && Lookup(p, SubmittedAtKey) == Some(submittedAt)
            && Lookup(p, FormModeKey) == Some(FormMode)
  {
    var p := BuildPayload(f, submittedAt);
    PayloadKeysDistinct();
    LookupAt(p, 0); LookupAt(p, 1); LookupAt(p, 2); LookupAt(p, 3);
    LookupAt(p, 4); LookupAt(p, 5); LookupAt(p, 6); LookupAt(p, 7);
    LookupAt(p, 8); LookupAt(p, 9); LookupAt(p, 10);
  }

  /** Whenever the submit button is enabled, both list entries of the body are non-empty
      (the options offered are non-empty strings). */
  lemma SubmitEnabledPayload(f: FormData, submittedAt: string)
    requires !SubmitDisabled(false, f)
    requires forall x :: x in f.expectations ==> x != ""
    requires forall x :: x in f.aiFeatures ==> x != ""
    ensures Lookup(BuildPayload(f, submittedAt), ExpectationsLabel) != Some("")
    ensures Lookup(BuildPayload(f, submittedAt), AiFeaturesLabel) != Some("")
  {
    PayloadFields(f, submittedAt);
    assert f.expectations[0] in f.expectations;
    assert f.aiFeatures[0] in f.aiFeatures;
    assert TotalLength(f.expectations) > 0;
    assert TotalLength(f.aiFeatures) > 0;
  }

  /** The body key under which a list field is posted. */
  function LabelOf(field: ListField): string
  {
    match field
    case Expectations => ExpectationsLabel
    case AiFeatures => AiFeaturesLabel
  }

  /** A choice added to a list shows up at the end of its joined entry. */
  lemma PayloadAfterAppend(f: FormData, field: ListField, v: string, submittedAt: string)
    requires v !in Get(f, field) && Get(f, field) != []
    requires field == Expectations ==> |f.expectations| < MaxExpectations
    ensures Lookup(BuildPayload(Toggle(f, field, v), submittedAt), LabelOf(field))
            == Some(Join(Get(f, field), ListSeparator) + ListSeparator + v)
  {
    ToggleAppends(f, field, v);
    JoinAppend(Get(f, field), v, ListSeparator);
    PayloadFields(Toggle(f, field, v), submittedAt);
  }

  /** How the webhook request ended: an ok status, another status, or a thrown error. */
  datatype Response = Ok | NotOk | NetworkError

  const RetryAlert: string := "Form gönderilirken bir hata oluştu. Lütfen tekrar deneyin."
  const ConnectionAlert: string := "Bir hata oluştu. Lütfen internet bağlantınızı kontrol edin."

  /** The alert shown after a request, if any. */
  function AlertFor(response: Response): (alert: Option<string>)
    ensures alert.None? <==> response == Ok
    ensures response == NotOk ==> alert == Some(RetryAlert)
    ensures response == NetworkError ==> alert == Some(ConnectionAlert)
    ensures RetryAlert != ConnectionAlert
  {
    match response
    case Ok => None
    case NotOk => Some(RetryAlert)
    case NetworkError => Some(ConnectionAlert)
  }

  /** The state of the waitlist page. */
  class WaitlistPage {
    var isSubmitting: bool
    var isSuccess: bool
    var formData: FormData

    /** The cap holds whenever the form is only changed through its handlers. */
    ghost predicate Valid()
      reads this
    {
      |formData.expectations| <= MaxExpectations
    }

    constructor ()
      ensures Valid()
      ensures !isSubmitting && !isSuccess && formData == EmptyForm
    {
      isSubmitting := false;
      isSuccess := false;
      formData := EmptyForm;
    }

    /** `handleCheckboxChange`. */
    method CheckboxChange(field: ListField, v: string)
      requires Valid()
      modifies this
      ensures Valid()
      ensures formData == Toggle(old(formData), field, v)
      ensures isSubmitting == old(isSubmitting) && isSuccess == old(isSuccess)
    {
      ToggleKeepsCap(formData, field, v);
      formData := Toggle(formData, field, v);
    }

    /** `handleSubmit`: posts the body built from the form at `submittedAt` and
        records the outcome `response`; returns the body sent and the alert shown. */
    method Submit(submittedAt: string, response: Response) returns (body: Payload, alert: Option<string>)
      requires Valid()
      modifies this
      ensures Valid()
      ensures formData == old(formData)
      ensures body == BuildPayload(old(formData), submittedAt)
      ensures !isSubmitting
      ensures isSuccess <==> old(isSuccess) || response == Ok
      ensures alert == AlertFor(response)
    {
      isSubmitting := true;
      body := BuildPayload(formData, submittedAt);
      alert := None;
      if response == Ok {
        isSuccess := true;
      } else if response == NotOk {
        alert := Some(RetryAlert);
      } else {
        alert := Some(ConnectionAlert);
      }
      isSubmitting := false;
    }
  }
}
