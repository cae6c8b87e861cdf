/** The `Event` value object (src/Analytics/Event.php): a type, a URL, a name,
    an optional value and an insertion-ordered property array, all changed in
    place by chaining setters. */
module Events {
  import opened Php

  /** A snapshot of an event, which is what the adapters read. */
  datatype EventData = EventData(
    eventType: string, url: string, name: string, value: Option<string>, props: Assoc<Value>)
  {
    /** `getProp($key)`: the value stored under the key, or null. */
    function Prop(k: string): Value { Lookup(props, k) }
  }

  class Event {
    var eventType: string
    var url: string
    var name: string
    var value: Option<string>
    var props: Assoc<Value>

    /** A PHP array never holds a key twice. */
    ghost predicate Valid()
      reads this
    {
      KeysUnique(props)
    }

    constructor ()
      ensures Valid()
      ensures eventType == "" && url == "" && name == "" && value == None && props == []
    {
      eventType, url, name, value, props := "", "", "", None, [];
    }

    function GetType(): string reads this { eventType }
    function GetUrl(): string reads this { url }
    function GetName(): string reads this { name }
    function GetValue(): Option<string> reads this { value }
    function GetProps(): Assoc<Value> reads this { props }

    /** `getProp($key)`: null for a missing key; reading changes nothing. */
    function GetProp(k: string): (r: Value)
      reads this
      ensures k !in Keys(props) ==> r == Null
      ensures k in Keys(props) ==> Get(props, k) == Some(r)
    {
      Lookup(props, k)
    }

    /** The state the adapters read. */
    function Data(): (d: EventData)
      reads this
      ensures d.eventType == eventType && d.url == url && d.name == name
      ensures d.value == value && d.props == props
      ensures forall k :: d.Prop(k) == GetProp(k)
    {
      EventData(eventType, url, name, value, props)
    }

    method SetType(t: string) returns (self: Event)
      modifies this
      ensures self == this && GetType() == t
      ensures url == old(url) && name == old(name) && value == old(value) && props == old(props)
    {
      eventType := t;
      self := this;
    }

    method SetUrl(u: string) returns (self: Event)
      modifies this
      ensures self == this && GetUrl() == u
      ensures eventType == old(eventType) && name == old(name) && value == old(value) && props == old(props)
    {
      url := u;
      self := this;
    }

    method SetName(n: string) returns (self: Event)
      modifies this
      ensures self == this && GetName() == n
      ensures eventType == old(eventType) && url == old(url) && value == old(value) && props == old(props)
    {
      name := n;
      self := this;
    }

    method SetValue(v: Option<string>) returns (self: Event)
      modifies this
      ensures self == this && GetValue() == v
      ensures eventType == old(eventType) && url == old(url) && name == old(name) && props == old(props)
    {
      value := v;
      self := this;
    }

    /** `addProp($key, $value)`: the key reads the new string, every other key
        reads as before; a new key goes last, an existing one keeps its slot. */
    method AddProp(k: string, v: string) returns (self: Event)
      requires Valid()
      modifies this
      ensures self == this && Valid()
      ensures props == Put(old(props), k, Str(v))
      ensures GetProp(k) == Str(v)
      ensures forall j :: j != k ==> GetProp(j) == old(GetProp(j))
      ensures k !in Keys(old(props)) ==> props == old(props) + [(k, Str(v))]
      ensures k in Keys(old(props)) ==> (|props| == |old(props)| &&
        forall i :: 0 <= i < |props| ==> props[i] == (if old(props)[i].0 == k then (k, Str(v)) else old(props)[i]))
      ensures eventType == old(eventType) && url == old(url) && name == old(name) && value == old(value)
    {
      ghost var before := props;
      props := Put(props, k, Str(v));
      PutUnique(before, k, Str(v));
      forall j ensures Get(props, j) == if j == k then Some(Str(v)) else Get(before, j) {
        PutGet(before, k, Str(v), j);
      }
      if k in Keys(before) {
        PutInPlace(before, k, Str(v));
      }
      self := this;
    }

    /** `removeProp($key)`: the key reads null afterwards, the other entries
        keep their values and their order; an absent key changes nothing. */
    method RemoveProp(k: string) returns (self: Event)
      requires Valid()
      modifies this
      ensures self == this && Valid()
      ensures props == Remove(old(props), k)
      ensures GetProp(k) == Null && k !in Keys(props)
      ensures forall j :: j != k ==> GetProp(j) == old(GetProp(j))
      ensures k !in Keys(old(props)) ==> props == old(props)
      ensures k in Keys(old(props)) ==>
        props == old(props)[..IndexOf(old(props), k)] + old(props)[IndexOf(old(props), k) + 1..]
      ensures eventType == old(eventType) && url == old(url) && name == old(name) && value == old(value)
    {
      ghost var before := props;
      if k in Keys(props) {
        props := Remove(props, k);
        RemoveSplice(before, k);
        RemoveUnique(before, k);
      }
      forall j ensures Get(props, j) == if j == k then None else Get(before, j) {
        RemoveGet(before, k, j);
      }
      self := this;
    }

    /** `setProps($props)` replaces the whole array. */
    method SetProps(p: Assoc<Value>) returns (self: Event)
      requires KeysUnique(p)
      modifies this
      ensures self == this && Valid() && GetProps() == p
      ensures eventType == old(eventType) && url == old(url) && name == old(name) && value == old(value)
    {
      props := p;
      self := this;
    }
  }

  /** Chaining on a fresh event: every setter returns the same object, so a
      built event reads back exactly what was set. */
  method Build(t: string, u: string, n: string, k: string, v: string) returns (e: Event)
    ensures fresh(e) && e.Valid()
    ensures e.GetType() == t && e.GetUrl() == u && e.GetName() == n && e.GetValue() == None
    ensures e.GetProps() == [(k, Str(v))]
  {
    e := new Event();
    var s := e.SetType(t);
    s := s.SetUrl(u);
    s := s.SetName(n);
    s := s.AddProp(k, v);
  }
}
