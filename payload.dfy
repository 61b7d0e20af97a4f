/**
 * `WebhookService.createJsonPayload`: the embeds become the JSON tree
 * `{"embeds": [...]}`, one object per embed in input order, with absent
 * attributes left out. Writing the tree out as text is not modelled; the
 * ISO-8601 instant formatter is a parameter `iso`.
 *
 * `ParsePayload` reads such a tree back, as a receiver would; the round-trip
 * lemma shows the encoder loses nothing.
 */
module Payload {
  import opened Wrappers
  import opened Json
  import opened Embeds

  /** Jackson's `put(key, String)`: a null string becomes a JSON null. */
  function Text(s: Option<string>): Json {
    if s.Some? then JString(s.value) else JNull
  }

  /** A candidate member: added to the object only when `present` holds. */
  datatype Slot = Slot(key: string, present: bool, value: Json)

  /** The members of the present slots, in slot order. */
  function Present(slots: seq<Slot>): (ms: seq<Member>)
    ensures |ms| <= |slots|
  {
    if slots == [] then []
    else (if slots[0].present then [Member(slots[0].key, slots[0].value)] else []) + Present(slots[1..])
  }

  /** Only slot keys become member keys. */
  lemma {:induction false} PresentKeysAmong(slots: seq<Slot>, allowed: seq<string>)
    requires forall i :: 0 <= i < |slots| ==> slots[i].key in allowed
    ensures forall k :: k in Keys(Present(slots)) ==> k in allowed
  {
    if slots != [] {
      var head := if slots[0].present then [Member(slots[0].key, slots[0].value)] else [];
      PresentKeysAmong(slots[1..], allowed);
      KeysAppend(head, Present(slots[1..]));
    }
  }

  predicate DistinctKeys(slots: seq<Slot>) {
    forall i, j :: 0 <= i < j < |slots| ==> slots[i].key != slots[j].key
  }

  /** A key that no slot carries is not a member. */
  lemma {:induction false} LookupMissing(slots: seq<Slot>, k: string)
    requires forall i :: 0 <= i < |slots| ==> slots[i].key != k
    ensures Lookup(Present(slots), k) == None
  {
    if slots != [] {
      LookupMissing(slots[1..], k);
      var head := if slots[0].present then [Member(slots[0].key, slots[0].value)] else [];
      LookupAppend(head, Present(slots[1..]), k);
    }
  }

  /** With distinct keys, a slot's key finds that slot's value exactly when it is present. */
  lemma {:induction false} LookupPresent(slots: seq<Slot>, i: nat)
    requires i < |slots| && DistinctKeys(slots)
    ensures Lookup(Present(slots), slots[i].key) == if slots[i].present then Some(slots[i].value) else None
  {
    var k := slots[i].key;
    var head := if slots[0].present then [Member(slots[0].key, slots[0].value)] else [];
    LookupAppend(head, Present(slots[1..]), k);
    if i == 0 {
      LookupMissing(slots[1..], k);
    } else {
      LookupPresent(slots[1..], i - 1);
    }
  }

  /** A field object: `name`, `value`, `inline`, in that order, all present. */
  function FieldSlots(f: WebhookField): (slots: seq<Slot>)
    ensures DistinctKeys(slots)
  {
    [Slot("name", true, Text(f.name)), Slot("value", true, Text(f.value)), Slot("inline", true, JBool(f.inline))]
  }

  function EncodeField(f: WebhookField): (r: Json)
    ensures r.JObject? && Keys(r.members) == ["name", "value", "inline"]
  {
    var slots := FieldSlots(f);
    assert Present(slots[2..]) == [Member("inline", JBool(f.inline))];
    assert Keys(Present(slots[1..])) == ["value", "inline"];
    JObject(Present(FieldSlots(f)))
  }

  /** The `fields` array: one object per field, in the same order. */
  function EncodeFields(fs: seq<WebhookField>): (r: seq<Json>)
    ensures |r| == |fs|
    ensures forall i :: 0 <= i < |fs| ==> r[i] == EncodeField(fs[i])
  {
    if fs == [] then [] else [EncodeField(fs[0])] + EncodeFields(fs[1..])
  }

  /** The footer object: `text`, and `icon_url` only when there is one. */
  function FooterSlots(f: WebhookFooter): (slots: seq<Slot>)
    ensures DistinctKeys(slots)
  {
    [Slot("text", true, Text(f.text)), Slot("icon_url", f.iconUrl.Some?, Text(f.iconUrl))]
  }

  function EncodeFooter(f: WebhookFooter): (r: Json)
    ensures r.JObject? && Keys(r.members) == if f.iconUrl.Some? then ["text", "icon_url"] else ["text"]
  {
    JObject(Present(FooterSlots(f)))
  }

  /** The keys an embed object may carry, in the order the encoder adds them. */
  const EmbedKeyNames: seq<string> := ["title", "description", "color", "fields", "footer", "timestamp"]

  /** The candidate members of one embed object, in the order the encoder adds them. */
  function EmbedSlots(e: WebhookEmbed, iso: Instant -> string): (slots: seq<Slot>)
    ensures |slots| == |EmbedKeyNames|
  {
    [ Slot("title", e.title.Some?, Text(e.title)),
      Slot("description", e.description.Some?, Text(e.description)),
      Slot("color", e.color.Some?, JNumber(e.color.GetOr(0))),
      Slot("fields", e.fields != [], JArray(EncodeFields(e.fields))),
      Slot("footer", e.footer.Some?, EncodeFooter(e.footer.GetOr(WebhookFooter(None, None)))),
      Slot("timestamp", e.timestamp.Some?, JString(if e.timestamp.Some? then iso(e.timestamp.value) else "")) ]
  }

  /** The six embed keys are distinct. */
  lemma EmbedKeyNamesDistinct()
    ensures forall i, j :: 0 <= i < j < |EmbedKeyNames| ==> EmbedKeyNames[i] != EmbedKeyNames[j]
  {
  }

  /** The slots carry the six embed keys, each once, in the order the encoder adds them. */
  lemma EmbedSlotKeys(e: WebhookEmbed, iso: Instant -> string)
    ensures var slots := EmbedSlots(e, iso);
      && (forall i :: 0 <= i < |slots| ==> slots[i].key == EmbedKeyNames[i])
      && DistinctKeys(slots)
  {
    var slots := EmbedSlots(e, iso);
    assert slots[0].key == "title" && slots[1].key == "description" && slots[2].key == "color";
    assert slots[3].key == "fields" && slots[4].key == "footer" && slots[5].key == "timestamp";
    EmbedKeyNamesDistinct();
    NamedSlotsDistinct(slots, EmbedKeyNames);
  }

  /** Slots named by distinct names have distinct keys. */
  lemma NamedSlotsDistinct(slots: seq<Slot>, names: seq<string>)
    requires |slots| == |names| && forall i :: 0 <= i < |slots| ==> slots[i].key == names[i]
    requires forall i, j :: 0 <= i < j < |names| ==> names[i] != names[j]
    ensures DistinctKeys(slots)
  {
  }

  function EmbedMembers(e: WebhookEmbed, iso: Instant -> string): seq<Member> {
    Present(EmbedSlots(e, iso))
  }

  function EncodeEmbed(e: WebhookEmbed, iso: Instant -> string): (r: Json)
    ensures r.JObject? && |r.members| <= |EmbedKeyNames|
  {
    JObject(EmbedMembers(e, iso))
  }

  /** The `embeds` array: one object per embed, in input order. */
  function EncodeEmbeds(es: seq<WebhookEmbed>, iso: Instant -> string): (r: seq<Json>)
    ensures |r| == |es|
    ensures forall i :: 0 <= i < |es| ==> r[i] == EncodeEmbed(es[i], iso)
  {
    if es == [] then []
    else
      var rest := EncodeEmbeds(es[1..], iso);
      assert forall i :: 1 <= i < |es| ==> es[1..][i - 1] == es[i];
      [EncodeEmbed(es[0], iso)] + rest
  }

  /** The whole payload: an object whose only key is `embeds`. */
  function CreateJsonPayload(es: seq<WebhookEmbed>, iso: Instant -> string): (j: Json)
    ensures j.JObject? && Keys(j.members) == ["embeds"]
    ensures Lookup(j.members, "embeds") == Some(JArray(EncodeEmbeds(es, iso)))
  {
    JObject([Member("embeds", JArray(EncodeEmbeds(es, iso)))])
  }

  /**
   * Which keys an embed object carries: each optional key exactly when the
   * attribute is present (`fields` when the list is non-empty).
   */
  lemma EmbedKeys(e: WebhookEmbed, iso: Instant -> string)
    ensures var ks := Keys(EmbedMembers(e, iso));
      && ("title" in ks <==> e.title.Some?)
      && ("description" in ks <==> e.description.Some?)
      && ("color" in ks <==> e.color.Some?)
      && ("fields" in ks <==> e.fields != [])
      && ("footer" in ks <==> e.footer.Some?)
      && ("timestamp" in ks <==> e.timestamp.Some?)
      && (forall k :: k in ks ==> k in EmbedKeyNames)
  {
    LookupEmbed(e, iso);
    EmbedSlotKeys(e, iso);
    PresentKeysAmong(EmbedSlots(e, iso), EmbedKeyNames);
  }

  /** The footer object has `icon_url` exactly when the footer has an icon URL, and no key but these two. */
  lemma FooterKeys(f: WebhookFooter)
    ensures Lookup(EncodeFooter(f).members, "text") == Some(Text(f.text))
    ensures "icon_url" in Keys(EncodeFooter(f).members) <==> f.iconUrl.Some?
    ensures forall k :: k in Keys(EncodeFooter(f).members) ==> k == "text" || k == "icon_url"
  {
    LookupPresent(FooterSlots(f), 0);
    LookupPresent(FooterSlots(f), 1);
  }

  // ---- Reading a payload back ----

  /** A JSON string or null as a nullable string. */
  function ParseText(j: Json): Option<Option<string>> {
    match j
    case JNull => Some(None)
    case JString(s) => Some(Some(s))
    case _ => None
  }

  function ParseField(j: Json): Option<WebhookField> {
    if !j.JObject? then None
    else
      var name := Lookup(j.members, "name");
      var value := Lookup(j.members, "value");
      var inline := Lookup(j.members, "inline");
      if name.None? || value.None? || inline.None? || !inline.value.JBool? then None
      else
        var n := ParseText(name.value);
        var v := ParseText(value.value);
        if n.None? || v.None? then None
        else Some(WebhookField(n.value, v.value, inline.value.b))
  }

  function ParseFields(items: seq<Json>): Option<seq<WebhookField>> {
    if items == [] then Some([])
    else
      var f := ParseField(items[0]);
      var rest := ParseFields(items[1..]);
      if f.None? || rest.None? then None else Some([f.value] + rest.value)
  }

  function ParseFooter(j: Json): Option<WebhookFooter> {
    if !j.JObject? then None
    else
      var text := Lookup(j.members, "text");
      var icon := Lookup(j.members, "icon_url");
      if text.None? || ParseText(text.value).None? then None
      else if icon.None? then Some(WebhookFooter(ParseText(text.value).value, None))
      else if icon.value.JString? then Some(WebhookFooter(ParseText(text.value).value, Some(icon.value.s)))
      else None
  }

  /** An optional string member: absent is `None`, a string is `Some`, anything else fails. */
  function ParseOptionalString(ms: seq<Member>, key: string): Option<Option<string>> {
    var v := Lookup(ms, key);
    if v.None? then Some(None)
    else if v.value.JString? then Some(Some(v.value.s))
    else None
  }

  /** `color`: absent, or a number. */
  function ParseColor(ms: seq<Member>): Option<Option<int>> {
    var v := Lookup(ms, "color");
    if v.None? then Some(None)
    else if v.value.JNumber? then Some(Some(v.value.n))
    else None
  }

  /** `fields`: absent (no fields), or an array of field objects. */
  function ParseFieldList(ms: seq<Member>): Option<seq<WebhookField>> {
    var v := Lookup(ms, "fields");
    if v.None? then Some([])
    else if v.value.JArray? then ParseFields(v.value.items)
    else None
  }

  /** `footer`: absent, or a footer object. */
  function ParseFooterMember(ms: seq<Member>): Option<Option<WebhookFooter>> {
    var v := Lookup(ms, "footer");
    if v.None? then Some(None)
    else
      var f := ParseFooter(v.value);
      if f.None? then None else Some(Some(f.value))
  }

  /** `timestamp`: absent, or a string the instant parser accepts. */
  function ParseTimestamp(ms: seq<Member>, parse: string -> Option<Instant>): Option<Option<Instant>> {
    var v := ParseOptionalString(ms, "timestamp");
    if v.None? then None
    else if v.value.None? then Some(None)
    else
      var t := parse(v.value.value);
      if t.None? then None else Some(Some(t.value))
  }

  function ParseEmbed(j: Json, parse: string -> Option<Instant>): Option<WebhookEmbed> {
    if !j.JObject? then None
    else
      var ms := j.members;
      var title := ParseOptionalString(ms, "title");
      var description := ParseOptionalString(ms, "description");
      var color := ParseColor(ms);
      var fields := ParseFieldList(ms);
      var footer := ParseFooterMember(ms);
      var timestamp := ParseTimestamp(ms, parse);
      if title.None? || description.None? || color.None? || fields.None? || footer.None? || timestamp.None? then None
      else Some(WebhookEmbed(title.value, description.value, color.value, fields.value, footer.value, timestamp.value))
  }

  function ParseEmbeds(items: seq<Json>, parse: string -> Option<Instant>): Option<seq<WebhookEmbed>> {
    if items == [] then Some([])
    else
      var e := ParseEmbed(items[0], parse);
      var rest := ParseEmbeds(items[1..], parse);
      if e.None? || rest.None? then None else Some([e.value] + rest.value)
  }

  function ParsePayload(j: Json, parse: string -> Option<Instant>): Option<seq<WebhookEmbed>> {
    if !j.JObject? then None
    else
      var embeds := Lookup(j.members, "embeds");
      if embeds.None? || !embeds.value.JArray? then None
      else ParseEmbeds(embeds.value.items, parse)
  }

  // ---- Round trip ----

  lemma FieldRoundTrip(f: WebhookField)
    ensures ParseField(EncodeField(f)) == Some(f)
  {
    LookupPresent(FieldSlots(f), 0);
    LookupPresent(FieldSlots(f), 1);
    LookupPresent(FieldSlots(f), 2);
  }

  lemma {:induction false} FieldsRoundTrip(fs: seq<WebhookField>)
    ensures ParseFields(EncodeFields(fs)) == Some(fs)
  {
    if fs != [] {
      FieldRoundTrip(fs[0]);
      FieldsRoundTrip(fs[1..]);
      assert EncodeFields(fs)[1..] == EncodeFields(fs[1..]);
      assert fs == [fs[0]] + fs[1..];
    }
  }

  lemma FooterRoundTrip(f: WebhookFooter)
    ensures ParseFooter(EncodeFooter(f)) == Some(f)
  {
    LookupPresent(FooterSlots(f), 0);
    LookupPresent(FooterSlots(f), 1);
  }

  /** What looking up each of the six keys of an encoded embed finds. */
  lemma LookupEmbed(e: WebhookEmbed, iso: Instant -> string)
    ensures var ms := EmbedMembers(e, iso);
      && Lookup(ms, "title") == (if e.title.Some? then Some(JString(e.title.value)) else None)
      && Lookup(ms, "description") == (if e.description.Some? then Some(JString(e.description.value)) else None)
      && Lookup(ms, "color") == (if e.color.Some? then Some(JNumber(e.color.value)) else None)
      && Lookup(ms, "fields") == (if e.fields != [] then Some(JArray(EncodeFields(e.fields))) else None)
      && Lookup(ms, "footer") == (if e.footer.Some? then Some(EncodeFooter(e.footer.value)) else None)
      && Lookup(ms, "timestamp") == (if e.timestamp.Some? then Some(JString(iso(e.timestamp.value))) else None)
  {
    EmbedSlotKeys(e, iso);
    LookupScalars(e, iso);
    LookupNested(e, iso);
  }

  /** The first three keys of an embed object: title, description, color. */
  lemma LookupScalars(e: WebhookEmbed, iso: Instant -> string)
    requires DistinctKeys(EmbedSlots(e, iso))
    ensures var ms := EmbedMembers(e, iso);
      && Lookup(ms, "title") == (if e.title.Some? then Some(JString(e.title.value)) else None)
      && Lookup(ms, "description") == (if e.description.Some? then Some(JString(e.description.value)) else None)
      && Lookup(ms, "color") == (if e.color.Some? then Some(JNumber(e.color.value)) else None)
  {
    var slots := EmbedSlots(e, iso);
    LookupPresent(slots, 0);
    LookupPresent(slots, 1);
    LookupPresent(slots, 2);
  }

  /** The last three keys of an embed object: fields, footer, timestamp. */
  lemma LookupNested(e: WebhookEmbed, iso: Instant -> string)
    requires DistinctKeys(EmbedSlots(e, iso))
    ensures var ms := EmbedMembers(e, iso);
      && Lookup(ms, "fields") == (if e.fields != [] then Some(JArray(EncodeFields(e.fields))) else None)
      && Lookup(ms, "footer") == (if e.footer.Some? then Some(EncodeFooter(e.footer.value)) else None)
      && Lookup(ms, "timestamp") == (if e.timestamp.Some? then Some(JString(iso(e.timestamp.value))) else None)
  {
    var slots := EmbedSlots(e, iso);
    LookupPresent(slots, 3);
    LookupPresent(slots, 4);
    LookupPresent(slots, 5);
  }

  lemma ParseAttributes(e: WebhookEmbed, iso: Instant -> string, parse: string -> Option<Instant>)
    requires forall t :: parse(iso(t)) == Some(t)
    ensures var ms := EmbedMembers(e, iso);
      && ParseOptionalString(ms, "title") == Some(e.title)
      && ParseOptionalString(ms, "description") == Some(e.description)
      && ParseColor(ms) == Some(e.color)
      && ParseFieldList(ms) == Some(e.fields)
      && ParseFooterMember(ms) == Some(e.footer)
      && ParseTimestamp(ms, parse) == Some(e.timestamp)
  {
    LookupEmbed(e, iso);
    FieldsRoundTrip(e.fields);
    if e.footer.Some? {
      FooterRoundTrip(e.footer.value);
    }
  }

  /**
   * With a formatter that the parser inverts, reading an encoded embed
   * gives back the embed: every attribute, every field in order.
   */
  lemma EmbedRoundTrip(e: WebhookEmbed, iso: Instant -> string, parse: string -> Option<Instant>)
    requires forall t :: parse(iso(t)) == Some(t)
    ensures ParseEmbed(EncodeEmbed(e, iso), parse) == Some(e)
  {
    ParseAttributes(e, iso, parse);
  }

  lemma {:induction false} EmbedsRoundTrip(es: seq<WebhookEmbed>, iso: Instant -> string, parse: string -> Option<Instant>)
    requires forall t :: parse(iso(t)) == Some(t)
    ensures ParseEmbeds(EncodeEmbeds(es, iso), parse) == Some(es)
  {
    if es != [] {
      var items := EncodeEmbeds(es, iso);
      assert items[1..] == EncodeEmbeds(es[1..], iso);
      EmbedRoundTrip(es[0], iso, parse);
      EmbedsRoundTrip(es[1..], iso, parse);
      ParseEmbedsCons(items, parse, es[0], es[1..]);
      assert es == [es[0]] + es[1..];
    }
  }

  /** `ParseEmbeds` on a non-empty array: the first embed, then the rest. */
  lemma ParseEmbedsCons(items: seq<Json>, parse: string -> Option<Instant>, e: WebhookEmbed, es: seq<WebhookEmbed>)
    requires items != [] && ParseEmbed(items[0], parse) == Some(e) && ParseEmbeds(items[1..], parse) == Some(es)
    ensures ParseEmbeds(items, parse) == Some([e] + es)
  {
  }

  /**
   * Round trip of the whole payload: the embeds come back in the order they
   * were submitted, each with exactly the attributes it had.
   */
  lemma PayloadRoundTrip(es: seq<WebhookEmbed>, iso: Instant -> string, parse: string -> Option<Instant>)
    requires forall t :: parse(iso(t)) == Some(t)
    ensures ParsePayload(CreateJsonPayload(es, iso), parse) == Some(es)
  {
    EmbedsRoundTrip(es, iso, parse);
  }
}
