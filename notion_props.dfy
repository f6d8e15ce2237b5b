/**
 * Reading typed values out of a Notion page's `properties` object, as the
 * work-plan and persona loaders do with `extractProperty`.
 *
 * A property is a record in which each kind of payload may be absent
 * (optional chaining gives `undefined` for a missing payload). A missing
 * property, an empty title or text and an unnamed select all read as
 * `null`; checkboxes default to `false`; multi-select and relation lists
 * default to `[]`; a number is passed through as it is.
 */
module NotionProps {
  import opened Wrappers

  /** One property object; `None` stands for a missing or null payload. */
  datatype Prop = Prop(
    title: Option<seq<string>>,      // plain_text of each rich-text run
    richText: Option<seq<string>>,
    select: Option<string>,          // select.name
    multiSelect: Option<seq<string>>,
    checkbox: Option<bool>,
    number: Option<int>,
    date: Option<string>,            // date.start
    relation: Option<seq<string>>,   // relation ids
    url: Option<string>)

  datatype PropType = Title | RichText | Select | MultiSelect | Checkbox | Number | Date | Relation | Url | OtherType

  /** The values `extractProperty` can return. */
  datatype Value = Null | Text(text: string) | Names(names: seq<string>) | Flag(flag: bool) | Num(num: int)

  type Props = map<string, Prop>

  /** `x || null` for an optional string. */
  function TextOrNull(o: Option<string>): (v: Value)
    ensures o.Some? && o.value != "" ==> v == Text(o.value)
    ensures o.None? || o.value == "" ==> v == Null
  {
    if Truthy(o) then Text(o.value) else Null
  }

  /** The first run's text of a title or rich-text payload, or `null`. */
  function FirstText(runs: Option<seq<string>>): (v: Value)
    ensures runs.Some? && |runs.value| > 0 && runs.value[0] != "" ==> v == Text(runs.value[0])
    ensures runs.None? || |runs.value| == 0 || runs.value[0] == "" ==> v == Null
  {
    if runs.Some? && |runs.value| > 0 then TextOrNull(Some(runs.value[0])) else Null
  }

  /** The text kinds: title, rich text, select, date and url. */
  predicate IsTextKind(t: PropType)
  {
    t == Title || t == RichText || t == Select || t == Date || t == Url
  }

  /**
   * The string a property of a text kind carries before `|| null` is
   * applied: the first run's `plain_text`, `select.name`, `date.start` or
   * the url.
   */
  function Payload(p: Prop, t: PropType): Option<string>
  {
    match t
    case Title => if p.title.Some? && |p.title.value| > 0 then Some(p.title.value[0]) else None
    case RichText => if p.richText.Some? && |p.richText.value| > 0 then Some(p.richText.value[0]) else None
    case Select => p.select
    case Date => p.date
    case Url => p.url
    case _ => None
  }

  function ExtractProperty(props: Props, name: string, t: PropType): (v: Value)
    ensures name !in props ==> v == Null
    ensures v.Text? ==> v.text != "" && IsTextKind(t)
    ensures name in props && IsTextKind(t) && Truthy(Payload(props[name], t))
            ==> v == Text(Payload(props[name], t).value)
    ensures IsTextKind(t) && !(name in props && Truthy(Payload(props[name], t))) ==> v == Null
    ensures name in props && t == Checkbox ==> v == Flag(props[name].checkbox == Some(true))
    ensures name in props && t == MultiSelect ==> v == Names(props[name].multiSelect.GetOr([]))
    ensures name in props && t == Relation ==> v == Names(props[name].relation.GetOr([]))
    ensures name in props && t == Number && props[name].number.Some? ==> v == Num(props[name].number.value)
    ensures t == Number && !(name in props && props[name].number.Some?) ==> v == Null
    ensures t == OtherType ==> v == Null
  {
    if name !in props then Null
    else
      var p := props[name];
      match t
      case Title => FirstText(p.title)
      case RichText => FirstText(p.richText)
      case Select => TextOrNull(p.select)
      case MultiSelect => Names(p.multiSelect.GetOr([]))
      case Checkbox => Flag(p.checkbox == Some(true))
      case Number => if p.number.Some? then Num(p.number.value) else Null
      case Date => TextOrNull(p.date)
      case Relation => Names(p.relation.GetOr([]))
      case Url => TextOrNull(p.url)
      case OtherType => Null
  }

  /**
   * A field read as text from property `name` of kind `t`: present exactly
   * when the property's payload is a non-empty string, and then that string.
   */
  predicate ReadsText(props: Props, name: string, t: PropType, o: Option<string>)
  {
    && (o.Some? <==> name in props && Truthy(Payload(props[name], t)))
    && (o.Some? ==> o.value == Payload(props[name], t).value)
  }

  /** A field read as a multi-select list: absent only when the property is. */
  predicate ReadsNames(props: Props, name: string, o: Option<seq<string>>)
  {
    && (o.Some? <==> name in props)
    && (o.Some? ==> o.value == props[name].multiSelect.GetOr([]))
  }

  /** A field read as a checkbox: absent only when the property is, otherwise `checkbox || false`. */
  predicate ReadsFlag(props: Props, name: string, o: Option<bool>)
  {
    && (o.Some? <==> name in props)
    && (o.Some? ==> o.value == (props[name].checkbox == Some(true)))
  }

  /** A field read as a number: the property's number, absent when there is none. */
  predicate ReadsNum(props: Props, name: string, o: Option<int>)
  {
    && (o.Some? <==> name in props && props[name].number.Some?)
    && (o.Some? ==> o.value == props[name].number.value)
  }

  /** `extractProperty` of a text kind, as an optional string. */
  function TextProp(props: Props, name: string, t: PropType): (o: Option<string>)
    ensures IsTextKind(t) ==> ReadsText(props, name, t, o)
  {
    AsText(ExtractProperty(props, name, t))
  }

  /** `extractProperty` of a multi-select property. */
  function NamesProp(props: Props, name: string): (o: Option<seq<string>>)
    ensures ReadsNames(props, name, o)
  {
    AsNames(ExtractProperty(props, name, MultiSelect))
  }

  /** `extractProperty` of a checkbox property. */
  function FlagProp(props: Props, name: string): (o: Option<bool>)
    ensures ReadsFlag(props, name, o)
  {
    AsFlag(ExtractProperty(props, name, Checkbox))
  }

  /** `extractProperty` of a number property. */
  function NumProp(props: Props, name: string): (o: Option<int>)
    ensures ReadsNum(props, name, o)
  {
    AsNum(ExtractProperty(props, name, Number))
  }

  /** A text-valued property as an optional string. */
  function AsText(v: Value): (o: Option<string>)
    ensures o.Some? <==> v.Text?
  {
    if v.Text? then Some(v.text) else None
  }

  /** A list-valued property; `null` stays absent. */
  function AsNames(v: Value): (o: Option<seq<string>>)
    ensures o.Some? <==> v.Names?
  {
    if v.Names? then Some(v.names) else None
  }

  function AsFlag(v: Value): (o: Option<bool>)
    ensures o.Some? <==> v.Flag?
  {
    if v.Flag? then Some(v.flag) else None
  }

  function AsNum(v: Value): (o: Option<int>)
    ensures o.Some? <==> v.Num?
  {
    if v.Num? then Some(v.num) else None
  }

  /** A text read through `extractProperty` is never the empty string. */
  lemma TextNeverEmpty(props: Props, name: string, t: PropType)
    ensures AsText(ExtractProperty(props, name, t)) != Some("")
  {
  }

  /** A text property holding `""` reads as `null`, like a missing one. */
  lemma EmptyTextIsNull(props: Props, name: string)
    requires name in props && props[name].richText == Some([""])
    ensures ExtractProperty(props, name, RichText) == Null
  {
  }
}
