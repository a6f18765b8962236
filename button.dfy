/**
 * The Button widget's prop resolution: which element it renders, its class
 * string, its content slots, and the attributes it computes for each mode.
 * Passthrough attributes it spreads unchanged are not part of this model.
 */
module ButtonWidget {
  import opened Wrappers
  import opened ClassNames

  datatype Variant = Solid | Outline | Ghost | LinkStyle | Dashed
  datatype Size = Small | Medium | Large

  /** The `as` prop: `'button'` or `'a'`. */
  datatype Tag = TagButton | TagAnchor

  /** The `type` of a native button. */
  datatype ButtonType = TypeButton | TypeSubmit | TypeReset

  /** Renderable content (children, icons), opaque here. */
  datatype Node = Node(id: nat)

  /**
   * The props of either shape; `None` is an absent or `undefined` prop, and
   * `href` is `None` also when it is `null`. A false boolean stands for
   * `false` and for absent alike.
   */
  datatype Props = Props(
    tag: Option<Tag>,
    children: Option<Node>,
    variant: Option<Variant>,
    size: Option<Size>,
    fullWidth: bool,
    loading: bool,
    leftIcon: Option<Node>,
    rightIcon: Option<Node>,
    className: Option<string>,
    href: Option<string>,
    target: Option<string>,
    rel: Option<string>,
    buttonType: Option<ButtonType>,
    disabled: bool)

  /** The pieces of content, in the order the component lays them out. */
  datatype Slot = Spinner | IconLeft(icon: Node) | Label(children: Option<Node>) | IconRight(icon: Node)

  /**
   * The rendered element with the attributes the component computes.
   * `ariaDisabled` and `ariaBusy` false mean the attribute is left out.
   */
  datatype Element =
    | Anchor(className: string, href: Option<string>, target: Option<string>, rel: Option<string>,
             ariaDisabled: bool, content: seq<Slot>)
    | NativeButton(className: string, buttonType: ButtonType, disabled: bool, ariaBusy: bool,
                   content: seq<Slot>)

  function VariantName(v: Variant): (s: string)
    ensures s != "" && NoSpace(s)
  {
    match v
    case Solid => "solid"
    case Outline => "outline"
    case Ghost => "ghost"
    case LinkStyle => "link"
    case Dashed => "dashed"
  }

  function SizeName(z: Size): (s: string)
    ensures s != "" && NoSpace(s)
  {
    match z
    case Small => "sm"
    case Medium => "md"
    case Large => "lg"
  }

  /** `variant = 'solid'`. */
  function VariantOf(p: Props): Variant {
    p.variant.GetOr(Solid)
  }

  /** `size = 'md'`. */
  function SizeOf(p: Props): Size {
    p.size.GetOr(Medium)
  }

  /** Link mode: `as === 'a'`, or an `href` that is present and not null. */
  predicate IsLink(p: Props) {
    p.tag == Some(TagAnchor) || p.href.Some?
  }

  const IsolationRel: string := "noopener noreferrer"

  /**
   * The `rel` of a link: a new-tab target with no (or an empty) `rel` gets the
   * isolation value; a non-empty `rel` is kept verbatim, and so is `rel` for
   * any other target.
   */
  function SecureRel(target: Option<string>, rel: Option<string>): (r: Option<string>)
    ensures target == Some("_blank") && !Truthy(rel) ==> r == Some(IsolationRel)
    ensures target == Some("_blank") && Truthy(rel) ==> r == rel
    ensures target != Some("_blank") ==> r == rel
    ensures target == Some("_blank") ==> Truthy(r)
  {
    if target == Some("_blank") then
      if Truthy(rel) then rel else Some(IsolationRel)
    else rel
  }

  /** The class parts, in the order they are given to `cx`. */
  function ClassParts(p: Props): seq<Part> {
    [Some("uglyworkgood-button"),
     Some("uwg-variant-" + VariantName(VariantOf(p))),
     Some("uwg-size-" + SizeName(SizeOf(p))),
     if p.fullWidth then Some("uwg-full") else None,
     if p.loading then Some("uwg-loading") else None,
     p.className]
  }

  function Classes(p: Props): string {
    Cx(ClassParts(p))
  }

  /** The classes the component itself contributes, in order. */
  function OwnClasses(p: Props): seq<string> {
    ["uglyworkgood-button",
     "uwg-variant-" + VariantName(VariantOf(p)),
     "uwg-size-" + SizeName(SizeOf(p))]
    + ((if p.fullWidth then ["uwg-full"] else []) + (if p.loading then ["uwg-loading"] else []))
  }

  /** The component's own classes start with the base class and are non-empty and space-free. */
  lemma OwnClassesSpaceFree(p: Props)
    ensures |OwnClasses(p)| >= 3 && OwnClasses(p)[0] == "uglyworkgood-button"
    ensures forall i :: 0 <= i < |OwnClasses(p)| ==> OwnClasses(p)[i] != "" && NoSpace(OwnClasses(p)[i])
  {
    var v, z := VariantName(VariantOf(p)), SizeName(SizeOf(p));
    assert NoSpace("uglyworkgood-button") && NoSpace("uwg-full") && NoSpace("uwg-loading");
    assert NoSpace("uwg-variant-" + v) by {
      forall k | 0 <= k < |"uwg-variant-" + v| ensures ("uwg-variant-" + v)[k] != ' ' {
        if k >= 12 { assert ("uwg-variant-" + v)[k] == v[k - 12]; }
      }
    }
    assert NoSpace("uwg-size-" + z) by {
      forall k | 0 <= k < |"uwg-size-" + z| ensures ("uwg-size-" + z)[k] != ' ' {
        if k >= 9 { assert ("uwg-size-" + z)[k] == z[k - 9]; }
      }
    }
  }

  lemma KeptClassParts(p: Props)
    ensures Kept(ClassParts(p)) == OwnClasses(p) + KeptOne(p.className)
  {
    var vc, sc := "uwg-variant-" + VariantName(VariantOf(p)), "uwg-size-" + SizeName(SizeOf(p));
    var full, busy := if p.fullWidth then Some("uwg-full") else None, if p.loading then Some("uwg-loading") else None;
    KeptSix(Some("uglyworkgood-button"), Some(vc), Some(sc), full, busy, p.className);
    assert KeptOne(Some("uglyworkgood-button")) == ["uglyworkgood-button"];
    assert KeptOne(Some(vc)) == [vc] && KeptOne(Some(sc)) == [sc];
    Regroup("uglyworkgood-button", vc, sc, KeptOne(full), KeptOne(busy), KeptOne(p.className));
  }

  lemma Regroup<T>(a: T, b: T, c: T, f: seq<T>, l: seq<T>, t: seq<T>)
    ensures [a] + ([b] + ([c] + (f + (l + (t + []))))) == ([a, b, c] + (f + l)) + t
  {
  }

  /**
   * The class string is the component's own classes joined by single spaces,
   * with the caller's `className` appended last, and nothing appended when it
   * is absent or empty.
   */
  lemma ClassesCallerLast(p: Props)
    ensures Classes(p) ==
              Join(OwnClasses(p)) + (if Truthy(p.className) then " " + p.className.value else "")
  {
    KeptClassParts(p);
    if Truthy(p.className) {
      JoinSnoc(OwnClasses(p), p.className.value);
    } else {
      assert OwnClasses(p) + [] == OwnClasses(p);
    }
  }

  /**
   * The fields of the class string are exactly the component's own classes
   * (base, variant, size, then `uwg-full` if full width and `uwg-loading` if
   * loading), then the fields of the caller's class if it is non-empty; a
   * space-free caller class is a single field.
   */
  lemma ClassFields(p: Props)
    ensures Split(Classes(p)) == OwnClasses(p) + (if Truthy(p.className) then Split(p.className.value) else [])
    ensures p.className.Some? && NoSpace(p.className.value) ==>
              Split(Classes(p)) == OwnClasses(p) + KeptOne(p.className)
  {
    ClassesCallerLast(p);
    OwnClassesSpaceFree(p);
    JoinThenFields(OwnClasses(p), p.className);
    if Truthy(p.className) && NoSpace(p.className.value) {
      SplitWord(p.className.value);
    }
  }

  /** The order of a slot in the layout. */
  function Rank(s: Slot): nat {
    match s
    case Spinner => 0
    case IconLeft(_) => 1
    case Label(_) => 2
    case IconRight(_) => 3
  }

  /**
   * The content: the spinner only when loading, the left icon only when given,
   * always the label, the right icon only when given, each at most once and in
   * that order.
   */
  function Content(p: Props): (r: seq<Slot>)
    ensures forall i, j :: 0 <= i < j < |r| ==> Rank(r[i]) < Rank(r[j])
    ensures Spinner in r <==> p.loading
    ensures Label(p.children) in r
    ensures forall s :: s in r && s.Label? ==> s == Label(p.children)
    ensures forall n :: IconLeft(n) in r <==> p.leftIcon == Some(n)
    ensures forall n :: IconRight(n) in r <==> p.rightIcon == Some(n)
  {
    (if p.loading then [Spinner] else [])
    + (if p.leftIcon.Some? then [IconLeft(p.leftIcon.value)] else [])
    + [Label(p.children)]
    + (if p.rightIcon.Some? then [IconRight(p.rightIcon.value)] else [])
  }

  /** The element the component renders for `p`. */
  function Render(p: Props): (e: Element)
    ensures e.Anchor? <==> IsLink(p)
    ensures e.className == Classes(p) && e.content == Content(p)
    ensures e.Anchor? ==> e.href == p.href && e.target == p.target && e.rel == SecureRel(p.target, p.rel)
    ensures e.Anchor? ==> (e.ariaDisabled <==> p.loading)
    ensures e.NativeButton? ==> (e.disabled <==> p.disabled || p.loading)
    ensures e.NativeButton? ==> (e.ariaBusy <==> p.loading)
    ensures e.NativeButton? && p.buttonType.None? ==> e.buttonType == TypeButton
    ensures e.NativeButton? && p.buttonType.Some? ==> e.buttonType == p.buttonType.value
  {
    var classes := Classes(p);
    var content := Content(p);
    if IsLink(p) then
      Anchor(classes, p.href, p.target, SecureRel(p.target, p.rel), p.loading, content)
    else
      NativeButton(classes, p.buttonType.GetOr(TypeButton), p.disabled || p.loading, p.loading, content)
  }

  /** A loading button is disabled and busy whatever `disabled` says; a loading link is aria-disabled. */
  lemma LoadingBlocks(p: Props)
    requires p.loading
    ensures Render(p).NativeButton? ==> Render(p).disabled && Render(p).ariaBusy
    ensures Render(p).Anchor? ==> Render(p).ariaDisabled
    ensures Render(p) == Render(p.(disabled := !p.disabled))
  {
  }

  /** A new-tab link always carries a non-empty `rel`: the caller's if given, else the two isolation words. */
  lemma NewTabIsolated(p: Props)
    requires IsLink(p) && p.target == Some("_blank")
    ensures Render(p).rel.Some?
    ensures Truthy(p.rel) ==> Render(p).rel == p.rel
    ensures !Truthy(p.rel) ==> Split(Render(p).rel.value) == ["noopener", "noreferrer"]
  {
    assert IsolationRel == Join(["noopener", "noreferrer"]);
    assert NoSpace("noopener") && NoSpace("noreferrer");
    SplitJoin(["noopener", "noreferrer"]);
  }

  /** Leaving out `variant` is the same as `variant = 'solid'`. */
  lemma DefaultVariant(p: Props)
    ensures Render(p.(variant := None)) == Render(p.(variant := Some(Solid)))
  {
    assert ClassParts(p.(variant := None)) == ClassParts(p.(variant := Some(Solid)));
  }

  /** Leaving out `size` is the same as `size = 'md'`. */
  lemma DefaultSize(p: Props)
    ensures Render(p.(size := None)) == Render(p.(size := Some(Medium)))
  {
    assert ClassParts(p.(size := None)) == ClassParts(p.(size := Some(Medium)));
  }

  /** A native button without `type` is a `type="button"` one, not a submit button. */
  lemma DefaultType(p: Props)
    requires !IsLink(p)
    ensures Render(p.(buttonType := None)).buttonType == TypeButton
    ensures Render(p.(buttonType := None)) == Render(p.(buttonType := Some(TypeButton)))
  {
  }
}
