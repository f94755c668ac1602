/**
 * The change-notifying property setter shared by every observable property of
 * the docking window and the task window.
 *
 * The source passes the backing field by reference; here the setter returns the
 * value the field must hold afterwards, and the caller stores it. What the setter
 * does besides writing the field (raising PropertyChanged, running the optional
 * callback) is returned as an ordered list of effects; each class appends the
 * notified names to its own notification log.
 */
module PropertyNotify {
  import opened Common

  /** One observable effect of a set: a PropertyChanged event, or the callback run with a value. */
  datatype Effect<T> = Notified(propertyName: string) | CalledBack(arg: T)

  /** The outcome of one set: the boolean the setter returns, the new field value, the effects in order. */
  datatype SetResult<F, T> = SetResult(changed: bool, field: F, effects: seq<Effect<T>>)

  /** The property names raised by a list of effects, in order. */
  function Names<T>(effects: seq<Effect<T>>): seq<string>
  {
    if effects == [] then []
    else (if effects[0].Notified? then [effects[0].propertyName] else []) + Names(effects[1..])
  }

  /** The values the callback was run with, in order. */
  function CallbackArgs<T>(effects: seq<Effect<T>>): seq<T>
  {
    if effects == [] then []
    else (if effects[0].CalledBack? then [effects[0].arg] else []) + CallbackArgs(effects[1..])
  }

  /** No callback runs before a notification. */
  predicate NotifyBeforeCallback<T>(effects: seq<Effect<T>>)
  {
    forall i, j :: 0 <= i < j < |effects| ==> !(effects[i].CalledBack? && effects[j].Notified?)
  }

  lemma {:induction false} NamesAppend<T>(a: seq<Effect<T>>, b: seq<Effect<T>>)
    ensures Names(a + b) == Names(a) + Names(b)
  {
    if a != [] {
      assert (a + b)[1..] == a[1..] + b;
      NamesAppend(a[1..], b);
    } else {
      assert a + b == b;
    }
  }

  lemma {:induction false} CallbackArgsAppend<T>(a: seq<Effect<T>>, b: seq<Effect<T>>)
    ensures CallbackArgs(a + b) == CallbackArgs(a) + CallbackArgs(b)
  {
    if a != [] {
      assert (a + b)[1..] == a[1..] + b;
      CallbackArgsAppend(a[1..], b);
    } else {
      assert a + b == b;
    }
  }

  /** OnPropertyChanged: a null property name raises nothing; otherwise one event with that name. */
  function OnPropertyChanged<T>(propertyName: Option<string>): (e: seq<Effect<T>>)
    ensures Names(e) == (if propertyName.Some? then [propertyName.value] else [])
    ensures CallbackArgs(e) == []
  {
    if propertyName.Some? then [Notified(propertyName.value)] else []
  }

  /** What a change does after the field is written: notify, then run the callback if there is one. */
  function ChangeEffects<T>(newValue: T, propertyName: Option<string>, hasCallback: bool): (e: seq<Effect<T>>)
    ensures Names(e) == (if propertyName.Some? then [propertyName.value] else [])
    ensures CallbackArgs(e) == (if hasCallback then [newValue] else [])
    ensures NotifyBeforeCallback(e)
  {
    var n := OnPropertyChanged<T>(propertyName);
    var c := if hasCallback then [CalledBack(newValue)] else [];
    NamesAppend(n, c);
    CallbackArgsAppend(n, c);
    n + c
  }

  /**
   * SetProperty for a field and a value of the same type (the first three
   * overloads of the source: a reference type, a value type, and a nullable value
   * type T? compared as a whole). Equal values leave everything as it was;
   * different values overwrite the field, raise exactly one notification (none for
   * a null name) and then run the callback with the new value.
   */
  function SetProperty<T(==)>(field: T, newValue: T, propertyName: Option<string>, hasCallback: bool): (r: SetResult<T, T>)
    ensures r.changed <==> field != newValue
    ensures r.field == newValue
    ensures Names(r.effects) == (if r.changed && propertyName.Some? then [propertyName.value] else [])
    ensures CallbackArgs(r.effects) == (if r.changed && hasCallback then [newValue] else [])
    ensures NotifyBeforeCallback(r.effects)
  {
    if field == newValue then SetResult(false, field, [])
    else SetResult(true, newValue, ChangeEffects(newValue, propertyName, hasCallback))
  }

  /**
   * The fourth overload: a nullable field set from a non-null value. The set is a
   * no-op only when the field holds a value equal to the new one; a null field is
   * always overwritten and notified.
   */
  function SetNullable<T(==)>(field: Option<T>, newValue: T, propertyName: Option<string>, hasCallback: bool): (r: SetResult<Option<T>, T>)
    ensures r.changed <==> !(field.Some? && field.value == newValue)
    ensures r.field == Some(newValue)
    ensures Names(r.effects) == (if r.changed && propertyName.Some? then [propertyName.value] else [])
    ensures CallbackArgs(r.effects) == (if r.changed && hasCallback then [newValue] else [])
    ensures NotifyBeforeCallback(r.effects)
  {
    if field.Some? && field.value == newValue then SetResult(false, field, [])
    else SetResult(true, Some(newValue), ChangeEffects(newValue, propertyName, hasCallback))
  }

  /** Setting the value the field already holds returns false and raises nothing, however often it is repeated. */
  lemma SetPropertyIdempotent<T>(field: T, newValue: T, propertyName: Option<string>, hasCallback: bool)
    ensures var first := SetProperty(field, newValue, propertyName, hasCallback);
            var second := SetProperty(first.field, newValue, propertyName, hasCallback);
            !second.changed && second.field == first.field && second.effects == []
  {
  }

  /** A null nullable field is always overwritten, with one notification for a non-null name. */
  lemma SetNullableFromNull<T>(newValue: T, name: string, hasCallback: bool)
    ensures var r := SetNullable(None, newValue, Some(name), hasCallback);
            r.changed && r.field == Some(newValue) && Names(r.effects) == [name]
  {
  }

  /**
   * The fourth overload behaves as the third one given the new value wrapped:
   * same result, same new field, same notifications.
   */
  lemma SetNullableAgreesWithSetProperty<T>(field: Option<T>, newValue: T, propertyName: Option<string>)
    ensures var a := SetNullable(field, newValue, propertyName, false);
            var b := SetProperty(field, Some(newValue), propertyName, false);
            a.changed == b.changed && a.field == b.field && Names(a.effects) == Names(b.effects)
  {
  }
}
