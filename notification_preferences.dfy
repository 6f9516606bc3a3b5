/** The notification settings editor: a local copy of the preference list that the user
    edits field by field, channel by channel or all at once, then saves or resets. */
module NotificationPreferences {
  import opened NotificationCenter

  /** A preference is for one notification type, or for the newsletter. */
  datatype PreferenceType = OfType(kind: NotificationType) | Newsletter

  datatype Channels = Channels(web: bool, email: bool, push: bool)

  datatype Frequency = Instant | Daily | Weekly | Disabled

  datatype Preference = Preference(
    id: string,
    labelText: string,
    description: string,
    kind: PreferenceType,
    channels: Channels,
    frequency: Frequency)

  /** `updatePreference(id, field, value)`: one field of the record and its new value. */
  datatype Edit =
    | SetId(id: string)
    | SetLabel(labelText: string)
    | SetDescription(description: string)
    | SetKind(kind: PreferenceType)
    | SetChannels(channels: Channels)
    | SetFrequency(frequency: Frequency)

  datatype Channel = Web | Email | Push

  /** `{ ...pref, [field]: value }`. */
  function WithField(p: Preference, e: Edit): Preference
  {
    match e
    case SetId(v) => p.(id := v)
    case SetLabel(v) => p.(labelText := v)
    case SetDescription(v) => p.(description := v)
    case SetKind(v) => p.(kind := v)
    case SetChannels(v) => p.(channels := v)
    case SetFrequency(v) => p.(frequency := v)
  }

  /** The field an edit reads back: what `WithField` wrote is there afterwards. */
  predicate HasField(p: Preference, e: Edit)
  {
    match e
    case SetId(v) => p.id == v
    case SetLabel(v) => p.labelText == v
    case SetDescription(v) => p.description == v
    case SetKind(v) => p.kind == v
    case SetChannels(v) => p.channels == v
    case SetFrequency(v) => p.frequency == v
  }

  /** Two records that agree on every field except the one an edit names. */
  predicate SameOutside(p: Preference, q: Preference, e: Edit)
  {
    (e.SetId? || p.id == q.id) && (e.SetLabel? || p.labelText == q.labelText)
    && (e.SetDescription? || p.description == q.description) && (e.SetKind? || p.kind == q.kind)
    && (e.SetChannels? || p.channels == q.channels) && (e.SetFrequency? || p.frequency == q.frequency)
  }

  lemma WithFieldSpec(p: Preference, e: Edit)
    ensures HasField(WithField(p, e), e)
    ensures SameOutside(WithField(p, e), p, e)
  {
  }

  /** The list after `updatePreference(id, field, value)`. */
  function UpdatePreference(ps: seq<Preference>, id: string, e: Edit): (r: seq<Preference>)
    ensures |r| == |ps|
    ensures forall i :: 0 <= i < |ps| && ps[i].id == id ==> HasField(r[i], e) && SameOutside(r[i], ps[i], e)
    ensures forall i :: 0 <= i < |ps| && ps[i].id != id ==> r[i] == ps[i]
  {
    seq(|ps|, i requires 0 <= i < |ps| => if ps[i].id == id then WithField(ps[i], e) else ps[i])
  }

  /** `{ ...channels, [channel]: value }`. */
  function WithChannel(c: Channels, channel: Channel, value: bool): (r: Channels)
    ensures channel == Web ==> r == Channels(value, c.email, c.push)
    ensures channel == Email ==> r == Channels(c.web, value, c.push)
    ensures channel == Push ==> r == Channels(c.web, c.email, value)
  {
    match channel
    case Web => c.(web := value)
    case Email => c.(email := value)
    case Push => c.(push := value)
  }

  /** The list after `updateChannel(id, channel, value)`. */
  function UpdateChannel(ps: seq<Preference>, id: string, channel: Channel, value: bool): (r: seq<Preference>)
    ensures |r| == |ps|
    ensures forall i :: 0 <= i < |ps| && ps[i].id == id ==>
              r[i] == ps[i].(channels := WithChannel(ps[i].channels, channel, value))
    ensures forall i :: 0 <= i < |ps| && ps[i].id != id ==> r[i] == ps[i]
  {
    seq(|ps|, i requires 0 <= i < |ps| =>
      if ps[i].id == id then ps[i].(channels := WithChannel(ps[i].channels, channel, value)) else ps[i])
  }

  /** The list after `handleQuickToggle(enabled)`. */
  function QuickToggle(ps: seq<Preference>, enabled: bool): (r: seq<Preference>)
    ensures |r| == |ps|
    ensures forall i :: 0 <= i < |ps| ==>
              && r[i].id == ps[i].id && r[i].labelText == ps[i].labelText
              && r[i].description == ps[i].description && r[i].kind == ps[i].kind
              && r[i].channels == Channels(enabled, enabled, enabled)
              && r[i].frequency == (if enabled then Instant else Disabled)
  {
    seq(|ps|, i requires 0 <= i < |ps| =>
      ps[i].(channels := Channels(enabled, enabled, enabled), frequency := if enabled then Instant else Disabled))
  }

  /** Toggling twice the same way is toggling once. */
  lemma QuickToggleIdempotent(ps: seq<Preference>, enabled: bool)
    ensures QuickToggle(QuickToggle(ps, enabled), enabled) == QuickToggle(ps, enabled)
  {
  }

  /** Turning on a channel that is already on for every matching entry changes nothing. */
  lemma UpdateChannelUnchanged(ps: seq<Preference>, id: string, channel: Channel)
    requires forall i :: 0 <= i < |ps| && ps[i].id == id ==>
               (match channel case Web => ps[i].channels.web case Email => ps[i].channels.email
                              case Push => ps[i].channels.push)
    ensures UpdateChannel(ps, id, channel, true) == ps
  {
  }

  /** What `handleSave` hands to its two callbacks. */
  datatype SaveCalls = SaveCalls(updatedPreferences: seq<Preference>, saveCalled: bool)

  class PreferencesEditor {
    /** The `preferences` prop. */
    const preferences: seq<Preference>
    var localPreferences: seq<Preference>
    var hasChanges: bool

    constructor (props: seq<Preference>)
      ensures preferences == props && localPreferences == props && !hasChanges
    {
      preferences := props;
      localPreferences := props;
      hasChanges := false;
    }

    /** `updatePreference(id, field, value)`. */
    method UpdatePreferenceField(id: string, e: Edit)
      modifies this
      ensures localPreferences == UpdatePreference(old(localPreferences), id, e)
      ensures hasChanges
    {
      localPreferences := UpdatePreference(localPreferences, id, e);
      hasChanges := true;
    }

    /** `updateChannel(id, channel, value)`. */
    method UpdateChannelFlag(id: string, channel: Channel, value: bool)
      modifies this
      ensures localPreferences == UpdateChannel(old(localPreferences), id, channel, value)
      ensures hasChanges
    {
      localPreferences := UpdateChannel(localPreferences, id, channel, value);
      hasChanges := true;
    }

    /** `handleQuickToggle(enabled)`. */
    method HandleQuickToggle(enabled: bool)
      modifies this
      ensures localPreferences == QuickToggle(old(localPreferences), enabled)
      ensures hasChanges
    {
      localPreferences := QuickToggle(localPreferences, enabled);
      hasChanges := true;
    }

    /** `handleSave`: the local list goes to `onUpdatePreferences`, then `onSave` is called
        and the editor is clean again. */
    method HandleSave() returns (calls: SaveCalls)
      modifies this
      ensures calls == SaveCalls(old(localPreferences), true)
      ensures localPreferences == old(localPreferences) && !hasChanges
    {
      calls := SaveCalls(localPreferences, true);
      hasChanges := false;
    }

    /** `handleReset`: back to the prop's list, with nothing to save. */
    method HandleReset()
      modifies this
      ensures localPreferences == preferences && !hasChanges
    {
      localPreferences := preferences;
      hasChanges := false;
    }
  }
}
