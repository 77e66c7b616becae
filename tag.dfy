/**
 * The render body of the `Tag` component (src/Tag.tsx:86-179): the class list,
 * the choice of native element (anchor, button or paragraph) and which of
 * the explicit props and the per-variant native props wins for `id`,
 * `title`, `style`, `onClick` and `aria-pressed`.
 */
module Tag {

  import opened Wrappers
  import opened JsStrings

  /** A click handler, compared by identity. */
  type Handler(==)

  /** Inline CSS properties. */
  type Style = map<string, string>

  /**
   * `linkProps`, `nativeButtonProps`, `nativeParagraphProps` or
   * `nativeSpanProps`: the attributes the render reads, and the others that
   * are only spread onto the element.
   */
  datatype NativeProps = NativeProps(
    id: Option<string>,
    className: Option<string>,
    style: Option<Style>,
    title: Option<string>,
    onClick: Option<Handler>,
    disabled: Option<bool>,
    others: map<string, string>)

  /** The props of `Tag`, after `children` and `ref` (passed through untouched) are set aside. */
  datatype TagProps = TagProps(
    id: Option<string>,
    className: Option<string>,
    small: Option<bool>,
    style: Option<Style>,
    title: Option<string>,
    iconId: Option<string>,
    pressed: Option<bool>,
    dismissible: Option<bool>,
    linkProps: Option<NativeProps>,
    nativeButtonProps: Option<NativeProps>,
    nativeParagraphProps: Option<NativeProps>,
    nativeSpanProps: Option<NativeProps>,
    onClick: Option<Handler>)

  datatype ElementKind = Anchor | Button | Paragraph

  /** A rendered element and the attributes it receives. */
  datatype Element = Element(
    kind: ElementKind,
    id: string,
    title: Option<string>,
    classes: seq<string>,
    style: Style,
    onClick: Option<Handler>,
    disabled: Option<bool>,
    ariaPressed: Option<bool>,
    others: map<string, string>)

  /** A class name part that `cx` keeps: present and not the empty string (the falsy values are dropped). */
  predicate Kept(part: Option<string>) {
    part.Some? && part.value != ""
  }

  /** `cx(...)`: the kept parts, in order, as a list of class names (joining them with spaces is left out). */
  function Cx(parts: seq<Option<string>>): (r: seq<string>)
    ensures |r| <= |parts|
    ensures forall c :: c in r ==> c != ""
  {
    if parts == [] then []
    else (if Kept(parts[0]) then [parts[0].value] else []) + Cx(parts[1..])
  }

  /** `cx` of a concatenation is the concatenation of the `cx` of each side: order is kept. */
  lemma {:induction false} CxAppend(a: seq<Option<string>>, b: seq<Option<string>>)
    ensures Cx(a + b) == Cx(a) + Cx(b)
  {
    if a != [] {
      assert (a + b)[0] == a[0] && (a + b)[1..] == a[1..] + b;
      CxAppend(a[1..], b);
    } else {
      assert a + b == b;
    }
  }

  /** A class name is in the list exactly when some part holds it; no duplicates are removed. */
  lemma {:induction false} CxMembers(parts: seq<Option<string>>, c: string)
    ensures c in Cx(parts) <==> c != "" && Some(c) in parts
  {
    if parts != [] {
      CxMembers(parts[1..], c);
      assert parts == [parts[0]] + parts[1..];
    }
  }

  /** `Some(s)` when the condition holds, `false` (dropped by `cx`) otherwise. */
  function When(condition: bool, s: string): Option<string> {
    if condition then Some(s) else None
  }

  /** `iconId` is truthy: given and not empty. */
  predicate HasIcon(p: TagProps) {
    Kept(p.iconId)
  }

  /** The `fr.cx(...)` call at src/Tag.tsx:114-120, with the defaults `small = false` and `dismissible = false`. */
  function Modifiers(p: TagProps): (r: seq<string>)
    ensures r == ["fr-tag"]
               + (if p.small == Some(true) then ["fr-tag--sm"] else [])
               + (if HasIcon(p) then [p.iconId.value, "fr-tag--icon-left"] else [])
               + (if p.dismissible == Some(true) then ["fr-tag--dismiss"] else [])
  {
    var parts := [Some("fr-tag"), When(p.small == Some(true), "fr-tag--sm"), p.iconId,
                  When(HasIcon(p), "fr-tag--icon-left"), When(p.dismissible == Some(true), "fr-tag--dismiss")];
    assert parts == [parts[0]] + [parts[1]] + [parts[2], parts[3]] + [parts[4]];
    CxAppend([parts[0]] + [parts[1]] + [parts[2], parts[3]], [parts[4]]);
    CxAppend([parts[0]] + [parts[1]], [parts[2], parts[3]]);
    CxAppend([parts[0]], [parts[1]]);
    assert Cx([parts[2], parts[3]]) == (if HasIcon(p) then [p.iconId.value, "fr-tag--icon-left"] else []) by {
      assert [parts[2], parts[3]][1..] == [parts[3]];
    }
    Cx(parts)
  }

  /** The class list at src/Tag.tsx:113-123: the modifiers, then the link's class, then `className`, last. */
  function TagClassName(p: TagProps): (r: seq<string>)
    ensures r == Modifiers(p)
               + (if p.linkProps.Some? && Kept(p.linkProps.value.className) then [p.linkProps.value.className.value] else [])
               + (if Kept(p.className) then [p.className.value] else [])
    ensures r[0] == "fr-tag"
    ensures Kept(p.className) ==> r[|r| - 1] == p.className.value
  {
    var linkClassName := if p.linkProps.Some? then p.linkProps.value.className else None;
    CxAppend([linkClassName], [p.className]);
    Modifiers(p) + Cx([linkClassName, p.className])
  }

  /** The icon class names of the design system, which is all the type of `iconId` admits. */
  predicate IsIconClassName(s: string) {
    StartsWith(s, "fr-icon-") || StartsWith(s, "ri-")
  }

  /** The modifier classes appear exactly when their props ask for them. */
  lemma ModifierMembers(p: TagProps)
    requires p.iconId.Some? ==> IsIconClassName(p.iconId.value)
    ensures "fr-tag" in Modifiers(p)
    ensures "fr-tag--sm" in Modifiers(p) <==> p.small == Some(true)
    ensures "fr-tag--icon-left" in Modifiers(p) <==> HasIcon(p)
    ensures HasIcon(p) <==> p.iconId.Some? && p.iconId.value in Modifiers(p)
    ensures "fr-tag--dismiss" in Modifiers(p) <==> p.dismissible == Some(true)
  {
    if p.iconId.Some? {
      var icon := p.iconId.value;
      // An icon class starts with `r`, or has an `i` where every modifier has a `t`.
      assert icon[0] == 'r' || (|icon| >= 8 && icon[3] == 'i') by {
        if StartsWith(icon, "ri-") {
          assert icon[0] == icon[..3][0];
        } else {
          assert icon[3] == icon[..8][3];
        }
      }
      assert "fr-tag"[0] == 'f' && |"fr-tag"| < 8;
      assert "fr-tag--sm"[0] == 'f' && "fr-tag--sm"[3] == 't';
      assert "fr-tag--icon-left"[0] == 'f' && "fr-tag--icon-left"[3] == 't';
      assert "fr-tag--dismiss"[0] == 'f' && "fr-tag--dismiss"[3] == 't';
    }
  }

  /** `nativeParagraphProps ?? nativeSpanProps`: the deprecated span props only count when no paragraph props are given. */
  function ParagraphProps(p: TagProps): (r: Option<NativeProps>)
    ensures p.nativeParagraphProps.Some? ==> r == p.nativeParagraphProps
    ensures p.nativeParagraphProps.None? ==> r == p.nativeSpanProps
  {
    if p.nativeParagraphProps.Some? then p.nativeParagraphProps else p.nativeSpanProps
  }

  /** `{ ...native?.style, ...style }`. */
  function MergedStyle(native: Option<Style>, explicit: Option<Style>): (r: Style)
    ensures forall k :: explicit.Some? && k in explicit.value ==> k in r && r[k] == explicit.value[k]
    ensures forall k :: native.Some? && k in native.value && !(explicit.Some? && k in explicit.value) ==>
      k in r && r[k] == native.value[k]
    ensures forall k :: k in r ==> (native.Some? && k in native.value) || (explicit.Some? && k in explicit.value)
  {
    native.GetOr(map[]) + explicit.GetOr(map[])
  }

  /**
   * The element of kind `kind` rendered with the variant's native props:
   * the native props are spread first, then the explicit attributes are set.
   * `generatedId` is what `useAnalyticsId` returned.
   */
  function RenderElement(kind: ElementKind, p: TagProps, native: Option<NativeProps>, generatedId: string): (e: Element)
    ensures e.kind == kind
    ensures p.id.Some? ==> e.id == p.id.value
    ensures p.id.None? && native.Some? && native.value.id.Some? ==> e.id == native.value.id.value
    ensures p.id.None? && (native.None? || native.value.id.None?) ==> e.id == generatedId
    ensures p.title.Some? ==> e.title == p.title
    ensures p.title.None? ==> e.title == (if native.Some? then native.value.title else None)
    ensures e.classes == (if native.Some? && Kept(native.value.className) then [native.value.className.value] else [])
                         + TagClassName(p)
    ensures e.style == MergedStyle(if native.Some? then native.value.style else None, p.style)
    ensures e.disabled == (if native.Some? then native.value.disabled else None)
    ensures kind == Button && p.onClick.Some? ==> e.onClick == p.onClick
    ensures kind == Button && p.onClick.None? ==> e.onClick == (if native.Some? then native.value.onClick else None)
    ensures kind != Button ==> e.onClick == (if native.Some? then native.value.onClick else None)
    ensures kind == Button ==> e.ariaPressed == p.pressed && "aria-pressed" !in e.others
    ensures kind != Button ==> e.ariaPressed.None?
    ensures kind != Button ==> e.others == (if native.Some? then native.value.others else map[])
    ensures kind == Button ==> e.others == (if native.Some? then native.value.others else map[]) - {"aria-pressed"}
  {
    var nativeClassName := if native.Some? then native.value.className else None;
    var nativeOnClick := if native.Some? then native.value.onClick else None;
    var others := if native.Some? then native.value.others else map[];
    Element(
      kind,
      p.id.GetOr(if native.Some? then native.value.id.GetOr(generatedId) else generatedId),
      if p.title.Some? then p.title else if native.Some? then native.value.title else None,
      (if Kept(nativeClassName) then [nativeClassName.value] else []) + TagClassName(p),
      MergedStyle(if native.Some? then native.value.style else None, p.style),
      if kind == Button && p.onClick.Some? then p.onClick else nativeOnClick,
      if native.Some? then native.value.disabled else None,
      if kind == Button then p.pressed else None,
      if kind == Button then others - {"aria-pressed"} else others)
  }

  /** The native props each kind of element is built from. */
  function VariantProps(p: TagProps, kind: ElementKind): Option<NativeProps> {
    match kind
    case Anchor => p.linkProps
    case Button => p.nativeButtonProps
    case Paragraph => ParagraphProps(p)
  }

  /** The fragment the component returns: an anchor, a button and a paragraph, each when its condition holds. */
  function Render(p: TagProps, generatedId: string): (elements: seq<Element>)
    ensures (exists e | e in elements :: e.kind == Anchor) <==> p.linkProps.Some?
    ensures (exists e | e in elements :: e.kind == Button) <==> p.nativeButtonProps.Some?
    ensures (exists e | e in elements :: e.kind == Paragraph) <==> p.linkProps.None? && p.nativeButtonProps.None?
    ensures forall e | e in elements :: e == RenderElement(e.kind, p, VariantProps(p, e.kind), generatedId)
  {
    (if p.linkProps.Some? then [RenderElement(Anchor, p, p.linkProps, generatedId)] else [])
    + (if p.nativeButtonProps.Some? then [RenderElement(Button, p, p.nativeButtonProps, generatedId)] else [])
    + (if p.linkProps.None? && p.nativeButtonProps.None? then [RenderElement(Paragraph, p, ParagraphProps(p), generatedId)] else [])
  }

  /**
   * What each rendered element takes from its own variant's props: the
   * fallback `id` and `title`, the attributes spread onto it, the button's
   * handler, and the paragraph props before the deprecated span props.
   */
  lemma RenderedFromVariant(p: TagProps, generatedId: string, e: Element)
    requires e in Render(p, generatedId)
    ensures e.kind == Anchor ==>
      && e.id == p.id.GetOr(p.linkProps.value.id.GetOr(generatedId))
      && e.title == (if p.title.Some? then p.title else p.linkProps.value.title)
      && e.onClick == p.linkProps.value.onClick
      && e.others == p.linkProps.value.others
    ensures e.kind == Button ==>
      && e.id == p.id.GetOr(p.nativeButtonProps.value.id.GetOr(generatedId))
      && e.title == (if p.title.Some? then p.title else p.nativeButtonProps.value.title)
      && e.onClick == (if p.onClick.Some? then p.onClick else p.nativeButtonProps.value.onClick)
      && e.others == p.nativeButtonProps.value.others - {"aria-pressed"}
    ensures e.kind == Paragraph && p.nativeParagraphProps.Some? ==>
      && e.id == p.id.GetOr(p.nativeParagraphProps.value.id.GetOr(generatedId))
      && e.title == (if p.title.Some? then p.title else p.nativeParagraphProps.value.title)
      && e.others == p.nativeParagraphProps.value.others
    ensures e.kind == Paragraph && p.nativeParagraphProps.None? && p.nativeSpanProps.Some? ==>
      && e.id == p.id.GetOr(p.nativeSpanProps.value.id.GetOr(generatedId))
      && e.title == (if p.title.Some? then p.title else p.nativeSpanProps.value.title)
      && e.others == p.nativeSpanProps.value.others
    ensures e.kind == Paragraph && p.nativeParagraphProps.None? && p.nativeSpanProps.None? ==>
      && e.id == p.id.GetOr(generatedId)
      && e.title == p.title
      && e.others == map[]
  {
  }

  /** The type of `TagProps` never gives both `linkProps` and `nativeButtonProps`. */
  predicate OneVariant(p: TagProps) {
    !(p.linkProps.Some? && p.nativeButtonProps.Some?)
  }

  /** Under the type-level exclusivity exactly one element is rendered, of the kind the props select. */
  lemma ExactlyOneElement(p: TagProps, generatedId: string)
    requires OneVariant(p)
    ensures |Render(p, generatedId)| == 1
    ensures Render(p, generatedId)[0].kind
         == if p.linkProps.Some? then Anchor else if p.nativeButtonProps.Some? then Button else Paragraph
  {
  }

  /** Without the exclusivity, both an anchor and a button are rendered: nothing checks it at run time. */
  lemma BothVariantsRenderTwo(p: TagProps, generatedId: string)
    requires p.linkProps.Some? && p.nativeButtonProps.Some?
    ensures |Render(p, generatedId)| == 2
    ensures Render(p, generatedId)[0].kind == Anchor && Render(p, generatedId)[1].kind == Button
  {
  }

  /** An anchor carries the link's class twice, once from the link and once inside the tag's class list. */
  lemma AnchorRepeatsLinkClassName(p: TagProps, generatedId: string)
    requires p.linkProps.Some? && Kept(p.linkProps.value.className)
    ensures
      var e := RenderElement(Anchor, p, p.linkProps, generatedId);
      var c := p.linkProps.value.className.value;
      e.classes[0] == c && e.classes[1..][|Modifiers(p)|] == c
  {
  }
}
