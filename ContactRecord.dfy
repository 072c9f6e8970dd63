/** The contact-settings record (`CreateContactData` in
    src/types/settings.ts, with the snake_case names the contact editor
    uses), addressed field by field for the keyed setter and the partial
    update. */
module ContactRecord {
  import opened Wrappers
  import opened Fields

  /** The data of the contact-settings row: everything but `id` and the timestamps. */
  datatype ContactData = ContactData(
    email: string,
    phone: Option<string>,
    address: Option<string>,
    social_links: map<string, string>,
    contact_form_webhook: Option<string>,
    auto_reply_enabled: bool,
    auto_reply_message: Option<string>)

  datatype ContactField =
    | Email | Phone | Address | SocialLinks | ContactFormWebhook | AutoReplyEnabled
    | AutoReplyMessage

  /** Every field once, in declaration order, in groups of five. */
  const Fields1: seq<ContactField> := [Email, Phone, Address, SocialLinks, ContactFormWebhook]
  const Fields2: seq<ContactField> := [AutoReplyEnabled, AutoReplyMessage]
  const AllFields: seq<ContactField> := Fields1 + Fields2

  lemma AllFieldsListed()
    ensures forall g :: g in AllFields
  {
    forall g ensures g in AllFields {
      match g
      case Email => assert g in Fields1;
      case Phone => assert g in Fields1;
      case Address => assert g in Fields1;
      case SocialLinks => assert g in Fields1;
      case ContactFormWebhook => assert g in Fields1;
      case AutoReplyEnabled => assert g in Fields2;
      case AutoReplyMessage => assert g in Fields2;
    }
  }

  function KindOf(f: ContactField): Kind {
    match f
    case Email => TextKind
    case Phone => OptionalText
    case Address => OptionalText
    case SocialLinks => LinksKind
    case ContactFormWebhook => OptionalText
    case AutoReplyEnabled => FlagKind
    case AutoReplyMessage => OptionalText
  }

  /** `d[f]`. Only an optional field can read as `Absent`. */
  function Get(d: ContactData, f: ContactField): (v: Value)
    ensures Fits(KindOf(f), v) || (KindOf(f) == OptionalText && v == Absent)
  {
    match f
    case Email => Text(d.email)
    case Phone => OptionalTextValue(d.phone)
    case Address => OptionalTextValue(d.address)
    case SocialLinks => Links(d.social_links)
    case ContactFormWebhook => OptionalTextValue(d.contact_form_webhook)
    case AutoReplyEnabled => Flag(d.auto_reply_enabled)
    case AutoReplyMessage => OptionalTextValue(d.auto_reply_message)
  }

  /** `{ ...d, [f]: v }`: field `f` reads `v` afterwards and every other
      field reads as before. */
  function With(d: ContactData, f: ContactField, v: Value): (r: ContactData)
    requires Fits(KindOf(f), v)
    ensures forall g :: Get(r, g) == if g == f then v else Get(d, g)
  {
    match f
    case Email => d.(email := v.s)
    case Phone => d.(phone := Some(v.s))
    case Address => d.(address := Some(v.s))
    case SocialLinks => d.(social_links := v.m)
    case ContactFormWebhook => d.(contact_form_webhook := Some(v.s))
    case AutoReplyEnabled => d.(auto_reply_enabled := v.b)
    case AutoReplyMessage => d.(auto_reply_message := Some(v.s))
  }

  /** Two records that agree on every field are the same record. */
  lemma Extensional(a: ContactData, b: ContactData)
    requires forall g :: Get(a, g) == Get(b, g)
    ensures a == b
  {
    SameFields1(a, b);
    SameFields2(a, b);
  }

  lemma SameFields1(a: ContactData, b: ContactData)
    requires forall g :: Get(a, g) == Get(b, g)
    ensures a.email == b.email && a.phone == b.phone && a.address == b.address && a.social_links == b.social_links && a.contact_form_webhook == b.contact_form_webhook
  {
    assert Get(a, Email) == Get(b, Email);
    assert Get(a, Phone) == Get(b, Phone);
    assert Get(a, Address) == Get(b, Address);
    assert Get(a, SocialLinks) == Get(b, SocialLinks);
    assert Get(a, ContactFormWebhook) == Get(b, ContactFormWebhook);
  }

  lemma SameFields2(a: ContactData, b: ContactData)
    requires forall g :: Get(a, g) == Get(b, g)
    ensures a.auto_reply_enabled == b.auto_reply_enabled && a.auto_reply_message == b.auto_reply_message
  {
    assert Get(a, AutoReplyEnabled) == Get(b, AutoReplyEnabled);
    assert Get(a, AutoReplyMessage) == Get(b, AutoReplyMessage);
  }

  /** A partial update payload (`Partial<...>`): the fields it lists, each
      with a value of the field's kind. */
  type Patch = map<ContactField, Value>

  predicate PatchFits(patch: Patch) {
    forall f :: f in patch ==> Fits(KindOf(f), patch[f])
  }

  function MergeFields(d: ContactData, patch: Patch, fs: seq<ContactField>): (r: ContactData)
    requires PatchFits(patch)
    ensures forall g :: Get(r, g) == if g in patch && g in fs then patch[g] else Get(d, g)
    decreases |fs|
  {
    if fs == [] then d
    else
      var d' := if fs[0] in patch then With(d, fs[0], patch[fs[0]]) else d;
      MergeFields(d', patch, fs[1..])
  }

  /** `{ ...d, ...patch }`: the listed fields take the payload's values, the
      others keep theirs. */
  function Merge(d: ContactData, patch: Patch): (r: ContactData)
    requires PatchFits(patch)
    ensures forall g :: Get(r, g) == if g in patch then patch[g] else Get(d, g)
  {
    AllFieldsListed();
    MergeFields(d, patch, AllFields)
  }

  /** What `{ ...d }` sends as an update: every field of `d` that holds a
      value (an `undefined` property is dropped from the request). */
  function Payload(d: ContactData): (patch: Patch)
    ensures PatchFits(patch)
    ensures forall g :: g in patch <==> Get(d, g) != Absent
    ensures forall g :: g in patch ==> patch[g] == Get(d, g)
  {
    AllFieldsListed();
    map g | g in AllFields && Get(d, g) != Absent :: Get(d, g)
  }

  /** No optional field is absent, as in every draft the editor holds. */
  predicate Complete(d: ContactData) {
    d.phone.Some? && d.address.Some? && d.contact_form_webhook.Some? && d.auto_reply_message.Some?
  }

  lemma CompleteHasAllFields(d: ContactData)
    ensures Complete(d) <==> forall g :: Get(d, g) != Absent
  {
    if !Complete(d) {
      assert Get(d, Phone) == Absent || Get(d, Address) == Absent || Get(d, ContactFormWebhook) == Absent || Get(d, AutoReplyMessage) == Absent;
    }
  }

  /** Sending a complete draft as an update makes the row's data equal to
      the draft, whatever the row held before. */
  lemma MergeCompletePayload(before: ContactData, d: ContactData)
    requires Complete(d)
    ensures Merge(before, Payload(d)) == d
  {
    CompleteHasAllFields(d);
    Extensional(Merge(before, Payload(d)), d);
  }


  /** The load-from-settings effect: absent `phone`, `address`,
      `contact_form_webhook` and `auto_reply_message` become `''`; `email`,
      `social_links` and `auto_reply_enabled` are copied as they are. */
  function Normalized(d: ContactData): (r: ContactData)
    ensures Complete(r)
    ensures forall g :: KindOf(g) != OptionalText ==> Get(r, g) == Get(d, g)
    ensures forall g :: KindOf(g) == OptionalText ==>
      Get(r, g) == if Get(d, g) == Absent then Text("") else Get(d, g)
  {
    d.(phone := Some(OrEmpty(d.phone)),
       address := Some(OrEmpty(d.address)),
       contact_form_webhook := Some(OrEmpty(d.contact_form_webhook)),
       auto_reply_message := Some(OrEmpty(d.auto_reply_message)))
  }

  /** Loading a record that has no absent field reproduces it exactly. */
  lemma NormalizedComplete(d: ContactData)
    requires Complete(d)
    ensures Normalized(d) == d
  {
    CompleteHasAllFields(d);
    Extensional(Normalized(d), d);
  }

  /** The six platforms the editor offers a link field for. */
  const Platforms: seq<string> := ["linkedin", "github", "twitter", "dribbble", "behance", "instagram"]

  /** The editor's starting draft. */
  const InitialDraft := ContactData(
    "", Some(""), Some(""), map p | p in Platforms :: "", Some(""), false, Some(""))

  lemma InitialDraftFacts()
    ensures Complete(InitialDraft)
    ensures forall g :: KindOf(g) == TextKind || KindOf(g) == OptionalText ==> Get(InitialDraft, g) == Text("")
    ensures !InitialDraft.auto_reply_enabled
    ensures InitialDraft.social_links.Keys == set p | p in Platforms
    ensures forall p :: p in InitialDraft.social_links ==> InitialDraft.social_links[p] == ""
  {
  }
}
