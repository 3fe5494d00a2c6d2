/**
 * The page the components run in, as far as they change it: `localStorage`
 * (a string-to-string map), the router's current location, and the HTTP
 * requests issued. Responses, geolocation answers and connectivity are not
 * here: each handler receives them as inputs.
 */
module Browser {

  datatype Option<+T> = None | Some(value: T)

  /** One record of the brand list (`brand.id`, `brand.name`). */
  datatype Brand = Brand(id: string, name: string)

  /** The requests the components issue, with the data they carry. */
  datatype Request =
    | LoginPost(emailId: string, password: string, role: string)
    | BrandsGet(authToken: Option<string>, skip: nat, limit: nat)

  /** What a component does to the page. */
  datatype Action =
    | SetItem(key: string, value: string)
    | RemoveItem(key: string)
    | Send(request: Request)
    | GetCurrentPosition
    | Navigate(path: string)

  datatype HostState = HostState(storage: map<string, string>, location: string, sent: seq<Request>)

  /** `localStorage.getItem(key)`: the stored string, or None where JavaScript gives null. */
  function GetItem(storage: map<string, string>, key: string): (r: Option<string>)
    ensures r.Some? <==> key in storage
    ensures r.Some? ==> r.value == storage[key]
  {
    if key in storage then Some(storage[key]) else None
  }

  /** `localStorage.setItem(key, value)`. */
  function WithItem(storage: map<string, string>, key: string, value: string): (r: map<string, string>)
    ensures GetItem(r, key) == Some(value)
    ensures forall k | k != key :: GetItem(r, k) == GetItem(storage, k)
    ensures r.Keys == storage.Keys + {key}
  {
    storage[key := value]
  }

  /** `localStorage.removeItem(key)`: removing an absent key changes nothing. */
  function WithoutItem(storage: map<string, string>, key: string): (r: map<string, string>)
    ensures GetItem(r, key) == None
    ensures forall k | k != key :: GetItem(r, k) == GetItem(storage, k)
    ensures key !in storage ==> r == storage
  {
    storage - {key}
  }

  /** The page after one action. Asking for the position changes nothing by itself. */
  function Perform(h: HostState, a: Action): (r: HostState)
    ensures a.Send? ==> r.sent == h.sent + [a.request]
    ensures !a.Send? ==> r.sent == h.sent
    ensures !a.Navigate? ==> r.location == h.location
    ensures !a.SetItem? && !a.RemoveItem? ==> r.storage == h.storage
    ensures a.Navigate? ==> r.location == a.path
    ensures a.SetItem? ==> r.storage == WithItem(h.storage, a.key, a.value)
    ensures a.RemoveItem? ==> r.storage == WithoutItem(h.storage, a.key)
  {
    match a
    case SetItem(k, v) => h.(storage := WithItem(h.storage, k, v))
    case RemoveItem(k) => h.(storage := WithoutItem(h.storage, k))
    case Send(r) => h.(sent := h.sent + [r])
    case GetCurrentPosition => h
    case Navigate(p) => h.(location := p)
  }

  class Host {
    var storage: map<string, string>
    var location: string
    var sent: seq<Request>

    constructor (storage: map<string, string>, location: string)
      ensures State() == HostState(storage, location, [])
    {
      this.storage := storage;
      this.location := location;
      this.sent := [];
    }

    function State(): HostState
      reads this
    {
      HostState(storage, location, sent)
    }

    method Do(a: Action)
      modifies this
      ensures State() == Perform(old(State()), a)
    {
      match a
      case SetItem(k, v) => storage := storage[k := v];
      case RemoveItem(k) => storage := storage - {k};
      case Send(r) => sent := sent + [r];
      case GetCurrentPosition =>
      case Navigate(p) => location := p;
    }
  }
}
