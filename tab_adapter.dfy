/**
 * `FloatingToolbarTabAdapter`: diffing of tab view-models, the bind of a tab
 * (icon width and background alpha follow selection), the payload binds that
 * set up a select or unselect animation, and the view holder's lifecycle.
 */
module TabAdapter {
  import opened Wrappers
  import opened TabAnimator

  datatype Icon = Icon(id: int)
  /** A click callback, by identity. */
  datatype ClickHandler = ClickHandler(id: int)

  datatype FloatingToolbarTabViewModel = FloatingToolbarTabViewModel(
    icon: Icon, text: string, isSelected: bool, onClick: Option<ClickHandler>)

  /** `areItemsTheSame`: the same tab when the texts match. */
  predicate AreItemsTheSame(oldItem: FloatingToolbarTabViewModel, newItem: FloatingToolbarTabViewModel) {
    oldItem.text == newItem.text
  }

  /** `areContentsTheSame`: text, selection and icon all match (the click handler is ignored). */
  predicate AreContentsTheSame(oldItem: FloatingToolbarTabViewModel, newItem: FloatingToolbarTabViewModel) {
    oldItem.text == newItem.text && oldItem.isSelected == newItem.isSelected && oldItem.icon == newItem.icon
  }

  /** `getChangePayload`: the select marker, the unselect marker, or nothing when selection did not change. */
  function GetChangePayload(oldItem: FloatingToolbarTabViewModel, newItem: FloatingToolbarTabViewModel): (r: Option<int>)
    ensures r == Some(SelectItem) <==> !oldItem.isSelected && newItem.isSelected
    ensures r == Some(UnselectItem) <==> oldItem.isSelected && !newItem.isSelected
    ensures r.None? <==> oldItem.isSelected == newItem.isSelected
  {
    if !oldItem.isSelected && newItem.isSelected then Some(SelectItem)
    else if oldItem.isSelected && !newItem.isSelected then Some(UnselectItem)
    else None
  }

  /**
   * The diff callbacks agree: equal contents means the same item and no
   * change payload, and a change payload is only produced for a change in contents.
   */
  lemma DiffCallbacksAgree(oldItem: FloatingToolbarTabViewModel, newItem: FloatingToolbarTabViewModel)
    ensures AreContentsTheSame(oldItem, newItem) ==> AreItemsTheSame(oldItem, newItem)
    ensures AreContentsTheSame(oldItem, newItem) ==> GetChangePayload(oldItem, newItem).None?
    ensures GetChangePayload(oldItem, newItem).Some? ==> !AreContentsTheSame(oldItem, newItem)
  {
  }

  /** What `bindViewHolder` leaves on a holder's views. */
  datatype TabBinding = TabBinding(icon: Icon, labelText: string, iconWidth: int, backgroundAlpha: int, onClick: Option<ClickHandler>)

  /** `bindViewHolder`: the icon is shown at full size and the background opaque exactly when selected. */
  function BindTab(item: FloatingToolbarTabViewModel, isSelected: bool, iconSize: nat): (b: TabBinding)
    ensures b.icon == item.icon && b.labelText == item.text && b.onClick == item.onClick
    ensures isSelected ==> b.iconWidth == iconSize && b.backgroundAlpha == BackgroundAlphaMax
    ensures !isSelected ==> b.iconWidth == 0 && b.backgroundAlpha == 0
  {
    TabBinding(item.icon, item.text, if isSelected then iconSize else 0, if isSelected then BackgroundAlphaMax else 0, item.onClick)
  }

  /**
   * The selection a payload bind uses: the state BEFORE the animation (unselected
   * for the select marker, selected for the unselect marker), or the item's own
   * selection for a full bind.
   */
  function BoundSelection(item: FloatingToolbarTabViewModel, payloads: seq<Payload>): (r: bool)
    ensures FirstIntPayload(payloads) == Some(SelectItem) ==> !r
    ensures FirstIntPayload(payloads) == Some(UnselectItem) ==> r
    ensures FirstIntPayload(payloads) !in {Some(SelectItem), Some(UnselectItem)} ==> r == item.isSelected
  {
    match FirstIntPayload(payloads)
    case Some(v) =>
      if v == SelectItem then false else if v == UnselectItem then true else item.isSelected
    case None => item.isSelected
  }

  /**
   * The adapter and the animator agree on a selection change: the adapter's
   * payload makes the animator record the change's direction, the payload bind
   * shows exactly the animation's first frame, and its last frame is what a
   * full bind of the new item shows.
   */
  lemma {:induction false} SelectionChangeAnimates(oldItem: FloatingToolbarTabViewModel, newItem: FloatingToolbarTabViewModel, iconSize: nat)
    requires oldItem.isSelected != newItem.isSelected
    ensures var payloads := [IntPayload(GetChangePayload(oldItem, newItem).value)];
      var info := RecordPreLayoutInformation(FlagChanged, payloads);
      var animation := AnimateChange(info);
      var first := BindTab(newItem, BoundSelection(newItem, payloads), iconSize);
      var last := BindTab(newItem, newItem.isSelected, iconSize);
      info == TabItemHolderInfo(newItem.isSelected) &&
      animation.ValueAnimation? &&
      FrameAt(animation.from, iconSize) == Frame(first.iconWidth, first.backgroundAlpha) &&
      FrameAt(animation.to, iconSize) == Frame(last.iconWidth, last.backgroundAlpha)
  {
    var payloads := [IntPayload(GetChangePayload(oldItem, newItem).value)];
    assert FirstIntPayload(payloads) == GetChangePayload(oldItem, newItem);
  }

  datatype LifecycleState = Initialized | Created | Started | Destroyed
  datatype LifecycleEvent = OnCreate | OnStart | OnStop | OnDestroy

  /** The state each event leads to. */
  function TargetState(event: LifecycleEvent): LifecycleState {
    match event
    case OnCreate => Created
    case OnStart => Started
    case OnStop => Created
    case OnDestroy => Destroyed
  }

  class LifecycleRegistry {
    var state: LifecycleState

    constructor ()
      ensures state == Initialized
    {
      state := Initialized;
    }

    method HandleLifecycleEvent(event: LifecycleEvent)
      modifies this
      ensures state == TargetState(event)
    {
      state := TargetState(event);
    }
  }

  /**
   * `TabViewHolder`: a lifecycle owner whose registry is created with the
   * holder, started and stopped on attach and detach, and destroyed and
   * replaced by a fresh created one on recycle.
   */
  class TabViewHolder {
    var lifecycleRegistry: LifecycleRegistry
    var binding: Option<TabBinding>

    constructor ()
      ensures fresh(lifecycleRegistry) && lifecycleRegistry.state == Created
      ensures binding.None?
    {
      var registry := new LifecycleRegistry();
      registry.HandleLifecycleEvent(OnCreate);
      lifecycleRegistry := registry;
      binding := None;
    }

    method OnAttachToWindow()
      modifies lifecycleRegistry
      ensures lifecycleRegistry.state == Started
    {
      lifecycleRegistry.HandleLifecycleEvent(OnStart);
    }

    method OnDetachFromWindow()
      modifies lifecycleRegistry
      ensures lifecycleRegistry.state == Created
    {
      lifecycleRegistry.HandleLifecycleEvent(OnStop);
    }

    method OnRecycled()
      modifies this, lifecycleRegistry
      ensures old(lifecycleRegistry).state == Destroyed
      ensures fresh(lifecycleRegistry) && lifecycleRegistry.state == Created
      ensures binding == old(binding)
    {
      lifecycleRegistry.HandleLifecycleEvent(OnDestroy);
      var registry := new LifecycleRegistry();
      registry.HandleLifecycleEvent(OnCreate);
      lifecycleRegistry := registry;
    }
  }

  class FloatingToolbarTabAdapter {
    /** The current list (`ListAdapter.getItem`). */
    var items: seq<FloatingToolbarTabViewModel>
    /** The `floating_tab_toolbar_tab_icon_size` dimension, in pixels. */
    const iconSize: nat

    constructor (iconSize: nat)
      ensures this.iconSize == iconSize && items == []
    {
      this.iconSize := iconSize;
      items := [];
    }

    method SubmitList(list: seq<FloatingToolbarTabViewModel>)
      modifies this
      ensures items == list
    {
      items := list;
    }

    /**
     * `onBindViewHolder` with payloads: a select or unselect marker binds the
     * pre-animation state; anything else falls through to the full bind.
     */
    method OnBindViewHolder(holder: TabViewHolder, position: int, payloads: seq<Payload>)
      requires 0 <= position < |items|
      modifies holder
      ensures holder.binding == Some(BindTab(items[position], BoundSelection(items[position], payloads), iconSize))
      ensures holder.lifecycleRegistry == old(holder.lifecycleRegistry)
    {
      var payload := FirstIntPayload(payloads);
      var item := items[position];
      if payload == Some(SelectItem) {
        holder.binding := Some(BindTab(item, false, iconSize));
      } else if payload == Some(UnselectItem) {
        holder.binding := Some(BindTab(item, true, iconSize));
      } else {
        holder.binding := Some(BindTab(item, item.isSelected, iconSize));
      }
    }

    method OnViewAttachedToWindow(holder: TabViewHolder)
      modifies holder.lifecycleRegistry
      ensures holder.lifecycleRegistry.state == Started
    {
      holder.OnAttachToWindow();
    }

    method OnViewDetachedFromWindow(holder: TabViewHolder)
      modifies holder.lifecycleRegistry
      ensures holder.lifecycleRegistry.state == Created
    {
      holder.OnDetachFromWindow();
    }

    method OnViewRecycled(holder: TabViewHolder)
      modifies holder, holder.lifecycleRegistry
      ensures old(holder.lifecycleRegistry).state == Destroyed
      ensures fresh(holder.lifecycleRegistry) && holder.lifecycleRegistry.state == Created
      ensures holder.binding == old(holder.binding)
    {
      holder.OnRecycled();
    }
  }

  /**
   * A holder shown, scrolled away and recycled: started while attached,
   * back to created when detached, and after recycling its old registry is
   * destroyed while the new one is created.
   */
  method HolderLifecycleScenario() returns (attached: LifecycleState, detached: LifecycleState,
                                            oldAfterRecycle: LifecycleState, newAfterRecycle: LifecycleState)
    ensures attached == Started && detached == Created
    ensures oldAfterRecycle == Destroyed && newAfterRecycle == Created
  {
    var adapter := new FloatingToolbarTabAdapter(48);
    var holder := new TabViewHolder();
    adapter.OnViewAttachedToWindow(holder);
    attached := holder.lifecycleRegistry.state;
    adapter.OnViewDetachedFromWindow(holder);
    detached := holder.lifecycleRegistry.state;
    var first := holder.lifecycleRegistry;
    adapter.OnViewRecycled(holder);
    oldAfterRecycle := first.state;
    newAfterRecycle := holder.lifecycleRegistry.state;
  }

  /**
   * Selecting a tab: the rebind with the select payload shows it unselected
   * (the animation then grows it), and a later full bind shows it selected.
   */
  method SelectTabScenario(tab: FloatingToolbarTabViewModel, iconSize: nat) returns (payloadBind: TabBinding, fullBind: TabBinding)
    requires !tab.isSelected
    ensures payloadBind.iconWidth == 0 && payloadBind.backgroundAlpha == 0
    ensures fullBind.iconWidth == iconSize && fullBind.backgroundAlpha == BackgroundAlphaMax
  {
    var adapter := new FloatingToolbarTabAdapter(iconSize);
    var selected := tab.(isSelected := true);
    adapter.SubmitList([selected]);
    var holder := new TabViewHolder();
    adapter.OnBindViewHolder(holder, 0, [IntPayload(GetChangePayload(tab, selected).value)]);
    payloadBind := holder.binding.value;
    adapter.OnBindViewHolder(holder, 0, []);
    fullBind := holder.binding.value;
  }
}
