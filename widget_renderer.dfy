/**
 * `AIWidgetRenderer`: a pure map from a (possibly missing) widget directive to
 * what is drawn. CSS classes are reduced to the layout and emphasis tier they denote.
 */
module WidgetRenderer {
  import opened Wrappers
  import opened AIWidget

  /** Where the card is placed: centred modal overlay, edge banners, side panels, or a plain wrapper. */
  datatype Layout = Overlay | TopBanner | BottomBanner | LeftPanel | RightPanel | Plain

  /** The border/background emphasis chosen from the priority. */
  datatype Tier = PrimaryTier | SecondaryTier | MutedTier | NeutralTier

  datatype Variant = DefaultVariant | OutlineVariant

  datatype ActionButton = ActionButton(caption: string, variant: Variant, action: string)

  datatype Rendered = Rendered(
    layout: Layout,
    tier: Tier,
    icon: string,
    title: string,
    body: string,
    dismissible: bool,
    buttons: seq<ActionButton>)

  const DefaultPosition := "top"
  const DefaultIcon := "\U{1F916}"

  /** `getPriorityStyles`. */
  function PriorityTier(priority: string): (t: Tier)
    ensures t == NeutralTier <==> priority !in {"high", "medium", "low"}
    ensures t == PrimaryTier <==> priority == "high"
    ensures t == SecondaryTier <==> priority == "medium"
    ensures t == MutedTier <==> priority == "low"
  {
    if priority == "high" then PrimaryTier
    else if priority == "medium" then SecondaryTier
    else if priority == "low" then MutedTier
    else NeutralTier
  }

  /** The `switch (component_type)`, with the position already defaulted. */
  function ShapeLayout(componentType: string, position: string): (l: Layout)
    ensures componentType == "popup" <==> l == Overlay
    ensures componentType == "banner" <==> l in {TopBanner, BottomBanner}
    ensures componentType == "sidepanel" <==> l in {LeftPanel, RightPanel}
    ensures componentType == "banner" ==> (l == TopBanner <==> position == "top")
    ensures componentType == "sidepanel" ==> (l == RightPanel <==> position == "right")
  {
    if componentType == "popup" then Overlay
    else if componentType == "banner" then (if position == "top" then TopBanner else BottomBanner)
    else if componentType == "sidepanel" then (if position == "right" then RightPanel else LeftPanel)
    else Plain
  }

  /** The `cta_list.map`: one button per entry, the first one `default`, the others `outline`. */
  function Buttons(ctaList: seq<CTAAction>): (bs: seq<ActionButton>)
    ensures |bs| == |ctaList|
    ensures forall i :: 0 <= i < |bs| ==>
      bs[i].caption == ctaList[i].caption && bs[i].action == ctaList[i].action
    ensures forall i :: 0 <= i < |bs| ==> (bs[i].variant == DefaultVariant <==> i == 0)
  {
    seq(|ctaList|, i requires 0 <= i < |ctaList| =>
      ActionButton(ctaList[i].caption, if i == 0 then DefaultVariant else OutlineVariant, ctaList[i].action))
  }

  /** The whole component: `null` for no directive, otherwise the card in its wrapper. */
  function Render(config: Option<WidgetConfig>, hasDismiss: bool): (r: Option<Rendered>)
    ensures r.None? <==> config.None?
    ensures r.Some? ==>
      && r.value.title == config.value.title && r.value.body == config.value.body
      && r.value.dismissible == hasDismiss
      && r.value.icon == config.value.icon.GetOr(DefaultIcon)
      && r.value.layout == ShapeLayout(config.value.componentType, config.value.position.GetOr(DefaultPosition))
      && r.value.tier == PriorityTier(config.value.priority)
      && r.value.buttons == Buttons(config.value.ctaList)
  {
    match config
    case None => None
    case Some(c) =>
      var position := c.position.GetOr(DefaultPosition);
      Some(Rendered(ShapeLayout(c.componentType, position), PriorityTier(c.priority),
                    c.icon.GetOr(DefaultIcon), c.title, c.body, hasDismiss, Buttons(c.ctaList)))
  }

  /** The token that reaches `onCTAClick` when button `i` is pressed. */
  function Click(r: Rendered, i: nat): (action: string)
    requires i < |r.buttons|
    ensures action == r.buttons[i].action
    ensures forall c, h :: Render(Some(c), h) == Some(r) ==> i < |c.ctaList| && action == c.ctaList[i].action
  {
    r.buttons[i].action
  }

  /** Pressing the i-th button passes the i-th entry's action, and only the first button is primary. */
  lemma ClickPassesEntryAction(config: WidgetConfig, hasDismiss: bool, i: nat)
    requires i < |config.ctaList|
    ensures Render(Some(config), hasDismiss).Some?
    ensures var r := Render(Some(config), hasDismiss).value;
      i < |r.buttons| && Click(r, i) == config.ctaList[i].action &&
      (r.buttons[i].variant == DefaultVariant <==> i == 0)
  {
  }

  /** A missing position is the top edge: a banner without one is a top banner, a side panel a left one. */
  lemma MissingPositionIsTop(config: WidgetConfig, hasDismiss: bool)
    requires config.position.None?
    ensures var r := Render(Some(config), hasDismiss).value;
      && (config.componentType == "banner" ==> r.layout == TopBanner)
      && (config.componentType == "sidepanel" ==> r.layout == LeftPanel)
      && (config.icon.None? ==> r.icon == DefaultIcon)
  {
  }

  /** A popup is the centred overlay whatever its position. */
  lemma PopupIgnoresPosition(config: WidgetConfig, position: Option<string>, hasDismiss: bool)
    requires config.componentType == "popup"
    ensures Render(Some(config.(position := position)), hasDismiss).value.layout == Overlay
  {
  }

  /** The priority never changes the layout, nor whether a dismiss control is shown. */
  lemma PriorityOnlyChangesTier(config: WidgetConfig, priority: string, hasDismiss: bool)
    ensures var r := Render(Some(config), hasDismiss).value;
      var r' := Render(Some(config.(priority := priority)), hasDismiss).value;
      r'.layout == r.layout && r'.dismissible == r.dismissible && r' == r.(tier := PriorityTier(priority))
  {
  }

  /** An unknown component type is still shown, as the plain card, with all its buttons. */
  lemma UnknownShapeStillShown(config: WidgetConfig, hasDismiss: bool)
    requires config.componentType !in {"popup", "banner", "sidepanel"}
    ensures var r := Render(Some(config), hasDismiss);
      r.Some? && r.value.layout == Plain && |r.value.buttons| == |config.ctaList|
  {
  }
}
