/**
 * stores/data-store.ts: the reference data the forms need (countries, clients,
 * roles, business units per client, the current admin), each with a loading
 * flag and an error message. Server answers are inputs; the records they carry
 * are given their own datatypes, and the normalisation each fetch applies is a
 * function proved against its documented defaults.
 */
module DataStore {
  import opened Common
  import opened Http
  import Json

  // ---------------------------------------------------------------------------
  // Records as the server sends them, and as the store keeps them

  /** A country as the list endpoint sends it (`_id` is `dbId`). */
  datatype RawCountry = RawCountry(dbId: string, name: string, isdCode: string, flag: Option<string>)

  /** `Country` after `fetchCountries`: the flag is always a string. */
  datatype Country = Country(dbId: string, name: string, isdCode: string, flag: string)

  /** A client record: any of the fields may be missing. */
  datatype RawClient = RawClient(dbId: Option<string>, id: Option<string>, firstName: Option<string>,
                                 lastName: Option<string>, companyName: Option<string>)

  /** `ClientOption`; `id` is absent when the record had neither `_id` nor `id`. */
  datatype ClientOption = ClientOption(id: Option<string>, name: string)

  datatype RoleStatus = RoleStatus(code: string, labelText: string)

  datatype RawRole = RawRole(dbId: string, name: string, description: Option<string>, permissions: string,
                             status: Option<RoleStatus>)

  datatype Role = Role(dbId: string, name: string, description: Option<string>, permissions: string,
                       status: RoleStatus)

  datatype RawBusinessUnit = RawBusinessUnit(dbId: Option<string>, id: Option<string>, name: string)

  datatype BusinessUnitOption = BusinessUnitOption(id: Option<string>, name: string)

  const ActiveStatus := RoleStatus("active", "Active")
  const DefaultClientName := "Client"

  const RolesFailed := "Failed to fetch roles"
  const CountriesFailed := "Failed to fetch countries"
  const ClientsFailed := "Failed to fetch clients"
  const BusinessUnitsFailed := "Failed to fetch business units"
  const AdminFailed := "Failed to fetch admin user"

  /** The TypeError message of `undefined.map(...)`, raised when `success` holds but `data` is missing. */
  const MapOfUndefined := "Cannot read properties of undefined (reading 'map')"

  /** `{ ...country, flag: country.flag || '' }`. */
  function NormalizeCountry(c: RawCountry): (r: Country)
    ensures r.dbId == c.dbId && r.name == c.name && r.isdCode == c.isdCode
    ensures r.flag == (if c.flag.Some? then c.flag.value else "")
  {
    Country(c.dbId, c.name, c.isdCode, OrElse(c.flag, ""))
  }

  /** `` `${firstName || ''} ${lastName || ''}`.trim() || companyName || 'Client' ``. */
  function ClientName(c: RawClient): (name: string)
    ensures name != ""
    ensures var full := Trim(OrElse(c.firstName, "") + " " + OrElse(c.lastName, ""));
            && (full != "" ==> name == full)
            && (full == "" && Truthy(c.companyName) ==> name == c.companyName.value)
            && (full == "" && !Truthy(c.companyName) ==> name == DefaultClientName)
  {
    OrElse(Some(Trim(OrElse(c.firstName, "") + " " + OrElse(c.lastName, ""))), OrElse(c.companyName, DefaultClientName))
  }

  /** A client with no name parts is shown by its company name, and failing that as 'Client'. */
  lemma ClientNameFallback(c: RawClient)
    requires c.firstName.None? && c.lastName.None?
    ensures ClientName(c) == OrElse(c.companyName, DefaultClientName)
  {
    assert Trim(" ") == "" by {
      assert TrimStart(" ") == "";
    }
  }

  function NormalizeClient(c: RawClient): (r: ClientOption)
    ensures r.id == FirstTruthy(c.dbId, c.id)
    ensures r.name == ClientName(c)
  {
    ClientOption(FirstTruthy(c.dbId, c.id), ClientName(c))
  }

  /** `{ ...role, status: role.status || { code: 'active', label: 'Active' } }`. */
  function NormalizeRole(r: RawRole): (out: Role)
    ensures out.dbId == r.dbId && out.name == r.name && out.description == r.description && out.permissions == r.permissions
    ensures out.status == (if r.status.Some? then r.status.value else ActiveStatus)
  {
    Role(r.dbId, r.name, r.description, r.permissions, r.status.GetOr(ActiveStatus))
  }

  function NormalizeBusinessUnit(b: RawBusinessUnit): (r: BusinessUnitOption)
    ensures r.id == FirstTruthy(b.dbId, b.id) && r.name == b.name
  {
    BusinessUnitOption(FirstTruthy(b.dbId, b.id), b.name)
  }

  function NormalizeCountries(s: seq<RawCountry>): (r: seq<Country>)
    ensures |r| == |s| && forall i :: 0 <= i < |s| ==> r[i] == NormalizeCountry(s[i])
  {
    seq(|s|, i requires 0 <= i < |s| => NormalizeCountry(s[i]))
  }

  function NormalizeClients(s: seq<RawClient>): (r: seq<ClientOption>)
    ensures |r| == |s| && forall i :: 0 <= i < |s| ==> r[i] == NormalizeClient(s[i])
  {
    seq(|s|, i requires 0 <= i < |s| => NormalizeClient(s[i]))
  }

  function NormalizeRoles(s: seq<RawRole>): (r: seq<Role>)
    ensures |r| == |s| && forall i :: 0 <= i < |s| ==> r[i] == NormalizeRole(s[i])
  {
    seq(|s|, i requires 0 <= i < |s| => NormalizeRole(s[i]))
  }

  function NormalizeBusinessUnits(s: seq<RawBusinessUnit>): (r: seq<BusinessUnitOption>)
    ensures |r| == |s| && forall i :: 0 <= i < |s| ==> r[i] == NormalizeBusinessUnit(s[i])
  {
    seq(|s|, i requires 0 <= i < |s| => NormalizeBusinessUnit(s[i]))
  }

  /** `error.message || fallback`. */
  function ErrorText(message: string, fallback: string): (r: string)
    ensures r != "" || fallback == ""
    ensures message != "" ==> r == message
    ensures message == "" ==> r == fallback
  {
    OrElse(Some(message), fallback)
  }

  // ---------------------------------------------------------------------------
  // Country search

  /** The search predicate: the lower-cased name contains the lower-cased search, or the ISD code contains the search. */
  function Matches(search: string): Country -> bool {
    (c: Country) => Contains(ToLower(c.name), ToLower(search)) || Contains(c.isdCode, search)
  }

  /** `filterCountries(search)`: the countries that match, in their original order. */
  function CountriesMatching(countries: seq<Country>, search: string): (r: seq<Country>)
    ensures |r| <= |countries|
    ensures forall i :: 0 <= i < |r| ==> r[i] in countries && Matches(search)(r[i])
    ensures forall i :: 0 <= i < |countries| && Matches(search)(countries[i]) ==> countries[i] in r
  {
    Filter(Matches(search), countries)
  }

  /** An empty search keeps every country. */
  lemma FilterCountriesEmpty(countries: seq<Country>)
    ensures CountriesMatching(countries, "") == countries
  {
    forall i | 0 <= i < |countries| ensures Matches("")(countries[i]) {
      assert IsPrefix("", ToLower(countries[i].name));
    }
    FilterKeepsAll(Matches(""), countries);
  }

  /** The search is applied country by country: the result of a concatenation is the concatenation of the results. */
  lemma FilterCountriesPiecewise(a: seq<Country>, b: seq<Country>, search: string)
    ensures CountriesMatching(a + b, search) == CountriesMatching(a, search) + CountriesMatching(b, search)
  {
    FilterConcat(Matches(search), a, b);
  }

  // ---------------------------------------------------------------------------
  // The business-unit cache

  type Cache = map<string, seq<BusinessUnitOption>>

  /** `getBusinessUnits(clientId)`: the cached list, or `[]` for a client never fetched. */
  function CachedUnits(cache: Cache, clientId: string): (r: seq<BusinessUnitOption>)
    ensures clientId !in cache ==> r == []
    ensures clientId in cache ==> r == cache[clientId]
  {
    if clientId in cache then cache[clientId] else []
  }

  /** The list a successful fetch stores for its client: the mapped units, or `[]` when the body has no `data`. */
  function FetchedUnits(body: Envelope<seq<RawBusinessUnit>>): (r: seq<BusinessUnitOption>)
    ensures body.data.None? ==> r == []
    ensures body.data.Some? ==> |r| == |body.data.value|
    ensures body.data.Some? ==> forall i :: 0 <= i < |r| ==> r[i] == NormalizeBusinessUnit(body.data.value[i])
  {
    if body.data.Some? then NormalizeBusinessUnits(body.data.value) else []
  }

  /** After storing a list for `c`, reading `c` gives that list, and every other client reads as before. */
  lemma CachedAfterStore(cache: Cache, c: string, units: seq<BusinessUnitOption>, other: string)
    ensures CachedUnits(cache[c := units], c) == units
    ensures other != c ==> CachedUnits(cache[c := units], other) == CachedUnits(cache, other)
  {
  }

  /** After clearing `c`, reading `c` gives `[]`, and every other client reads as before. */
  lemma CachedAfterClear(cache: Cache, c: string, other: string)
    ensures CachedUnits(cache - {c}, c) == []
    ensures other != c ==> CachedUnits(cache - {c}, other) == CachedUnits(cache, other)
  {
  }

  // ---------------------------------------------------------------------------
  // The store

  /** How a list fetch settles: the new list, or the error message the store records. */
  datatype Fetched<T> = Loaded(items: T) | FetchError(message: string)

  /**
   * `fetchRoles` and `fetchCountries` both require `success`, then map `data`;
   * a successful envelope without `data` makes the map throw a TypeError.
   */
  function FetchBySuccess<R, T>(reply: Outcome<Envelope<seq<R>>>, normalize: seq<R> -> T, fallback: string): (r: Fetched<T>)
    ensures reply.Failure? ==> r == FetchError(ErrorText(reply.error.message, fallback))
    ensures reply.Reply? && !reply.body.success ==> r == FetchError(fallback)
    ensures reply.Reply? && reply.body.success && reply.body.data.None? ==> r == FetchError(MapOfUndefined)
    ensures r.Loaded? <==> reply.Reply? && reply.body.success && reply.body.data.Some?
    ensures r.Loaded? ==> r.items == normalize(reply.body.data.value)
  {
    match reply
    case Failure(e) => FetchError(ErrorText(e.message, fallback))
    case Reply(_, body) =>
      if !body.success then FetchError(ErrorText(fallback, fallback))
      else if body.data.None? then FetchError(ErrorText(MapOfUndefined, fallback))
      else Loaded(normalize(body.data.value))
  }

  /** `fetchClients` looks only at `data`, not at `success`. */
  function FetchClientsResult(reply: Outcome<Envelope<seq<RawClient>>>): (r: Fetched<seq<ClientOption>>)
    ensures reply.Failure? ==> r == FetchError(ErrorText(reply.error.message, ClientsFailed))
    ensures reply.Reply? && reply.body.data.None? ==> r == FetchError(ClientsFailed)
    ensures reply.Reply? && reply.body.data.Some? ==> r == Loaded(NormalizeClients(reply.body.data.value))
  {
    match reply
    case Failure(e) => FetchError(ErrorText(e.message, ClientsFailed))
    case Reply(_, body) =>
      if body.data.None? then FetchError(ClientsFailed) else Loaded(NormalizeClients(body.data.value))
  }

  function NormalizeRolesFn(): seq<RawRole> -> seq<Role> {
    (s: seq<RawRole>) => NormalizeRoles(s)
  }

  function NormalizeCountriesFn(): seq<RawCountry> -> seq<Country> {
    (s: seq<RawCountry>) => NormalizeCountries(s)
  }

  /** A snapshot of the store. */
  datatype DataState = DataState(
    countries: seq<Country>, filteredCountries: seq<Country>, countriesLoading: bool, countriesError: Option<string>,
    clients: seq<ClientOption>, clientsLoading: bool, clientsError: Option<string>,
    businessUnitsCache: Cache, businessUnitsLoading: bool, businessUnitsError: Option<string>,
    currentAdmin: Option<Json.Value>, currentAdminLoading: bool, currentAdminError: Option<string>,
    roles: seq<Role>, rolesLoading: bool, rolesError: Option<string>)

  const InitialData := DataState([], [], false, None, [], false, None, map[], false, None, None, false, None, [], false, None)

  class DataStore {
    var countries: seq<Country>
    var filteredCountries: seq<Country>
    var countriesLoading: bool
    var countriesError: Option<string>
    var clients: seq<ClientOption>
    var clientsLoading: bool
    var clientsError: Option<string>
    var businessUnitsCache: Cache
    var businessUnitsLoading: bool
    var businessUnitsError: Option<string>
    var currentAdmin: Option<Json.Value>
    var currentAdminLoading: bool
    var currentAdminError: Option<string>
    var roles: seq<Role>
    var rolesLoading: bool
    var rolesError: Option<string>

    function View(): DataState
      reads this
    {
      DataState(countries, filteredCountries, countriesLoading, countriesError,
                clients, clientsLoading, clientsError,
                businessUnitsCache, businessUnitsLoading, businessUnitsError,
                currentAdmin, currentAdminLoading, currentAdminError,
                roles, rolesLoading, rolesError)
    }

    constructor ()
      ensures View() == InitialData
    {
      countries, filteredCountries, countriesLoading, countriesError := [], [], false, None;
      clients, clientsLoading, clientsError := [], false, None;
      businessUnitsCache, businessUnitsLoading, businessUnitsError := map[], false, None;
      currentAdmin, currentAdminLoading, currentAdminError := None, false, None;
      roles, rolesLoading, rolesError := [], false, None;
    }

    /** `fetchRoles()`: roles without a status are shown as active. */
    method FetchRoles(reply: Outcome<Envelope<seq<RawRole>>>)
      modifies this
      ensures var r := FetchBySuccess(reply, NormalizeRolesFn(), RolesFailed);
              View() == if r.Loaded? then old(View()).(roles := r.items, rolesLoading := false, rolesError := None)
                        else old(View()).(rolesLoading := false, rolesError := Some(r.message))
    {
      rolesLoading, rolesError := true, None;
      var r := FetchBySuccess(reply, NormalizeRolesFn(), RolesFailed);
      match r
      case Loaded(items) =>
        roles, rolesLoading := items, false;
      case FetchError(message) =>
        rolesError, rolesLoading := Some(message), false;
    }

    /** `fetchCountries()`: both the list and the filtered list become the fetched countries. */
    method FetchCountries(reply: Outcome<Envelope<seq<RawCountry>>>)
      modifies this
      ensures var r := FetchBySuccess(reply, NormalizeCountriesFn(), CountriesFailed);
              View() == if r.Loaded? then old(View()).(countries := r.items, filteredCountries := r.items,
                                                       countriesLoading := false, countriesError := None)
                        else old(View()).(countriesLoading := false, countriesError := Some(r.message))
    {
      countriesLoading, countriesError := true, None;
      var r := FetchBySuccess(reply, NormalizeCountriesFn(), CountriesFailed);
      match r
      case Loaded(items) =>
        countries, filteredCountries, countriesLoading := items, items, false;
      case FetchError(message) =>
        countriesError, countriesLoading := Some(message), false;
    }

    method SetFilteredCountries(cs: seq<Country>)
      modifies this
      ensures View() == old(View()).(filteredCountries := cs)
    {
      filteredCountries := cs;
    }

    /** `filterCountries(search)`: only the filtered list changes. */
    method FilterCountries(search: string)
      modifies this
      ensures View() == old(View()).(filteredCountries := CountriesMatching(old(countries), search))
    {
      filteredCountries := CountriesMatching(countries, search);
    }

    method FetchClients(reply: Outcome<Envelope<seq<RawClient>>>)
      modifies this
      ensures var r := FetchClientsResult(reply);
              View() == if r.Loaded? then old(View()).(clients := r.items, clientsLoading := false, clientsError := None)
                        else old(View()).(clientsLoading := false, clientsError := Some(r.message))
    {
      clientsLoading, clientsError := true, None;
      var r := FetchClientsResult(reply);
      match r
      case Loaded(items) =>
        clients, clientsLoading := items, false;
      case FetchError(message) =>
        clientsError, clientsLoading := Some(message), false;
    }

    method ClearClients()
      modifies this
      ensures View() == old(View()).(clients := [], clientsError := None)
    {
      clients, clientsError := [], None;
    }

    /**
     * `fetchBusinessUnits(clientId)`: an empty id empties the whole cache without
     * a fetch; a reply overwrites only that client's entry; an error leaves the
     * cache alone and records the message.
     */
    method FetchBusinessUnits(clientId: string, reply: Outcome<Envelope<seq<RawBusinessUnit>>>) returns (fetched: bool)
      modifies this
      ensures fetched <==> clientId != ""
      ensures !fetched ==> View() == old(View()).(businessUnitsCache := map[], businessUnitsError := None)
      ensures fetched && reply.Reply? ==>
                View() == old(View()).(businessUnitsCache := old(businessUnitsCache)[clientId := FetchedUnits(reply.body)],
                                       businessUnitsLoading := false, businessUnitsError := None)
      ensures fetched && reply.Failure? ==>
                View() == old(View()).(businessUnitsLoading := false,
                                       businessUnitsError := Some(ErrorText(reply.error.message, BusinessUnitsFailed)))
    {
      if clientId == "" {
        businessUnitsCache, businessUnitsError := map[], None;
        return false;
      }
      fetched := true;
      businessUnitsLoading, businessUnitsError := true, None;
      match reply
      case Reply(_, body) =>
        businessUnitsCache := businessUnitsCache[clientId := FetchedUnits(body)];
        businessUnitsLoading := false;
      case Failure(e) =>
        businessUnitsError, businessUnitsLoading := Some(ErrorText(e.message, BusinessUnitsFailed)), false;
    }

    /** `getBusinessUnits(clientId)`. */
    method GetBusinessUnits(clientId: string) returns (units: seq<BusinessUnitOption>)
      ensures units == CachedUnits(businessUnitsCache, clientId)
    {
      units := if clientId in businessUnitsCache then businessUnitsCache[clientId] else [];
    }

    /** `clearBusinessUnits(clientId?)`: one entry, or with no (or an empty) id the whole cache. */
    method ClearBusinessUnits(clientId: Option<string>)
      modifies this
      ensures Truthy(clientId) ==> View() == old(View()).(businessUnitsCache := old(businessUnitsCache) - {clientId.value})
      ensures !Truthy(clientId) ==> View() == old(View()).(businessUnitsCache := map[])
    {
      if Truthy(clientId) {
        businessUnitsCache := businessUnitsCache - {clientId.value};
      } else {
        businessUnitsCache := map[];
      }
    }

    /** `fetchCurrentAdmin()`: the whole response body becomes `currentAdmin`. */
    method FetchCurrentAdmin(reply: Outcome<Json.Value>)
      modifies this
      ensures reply.Reply? ==> View() == old(View()).(currentAdmin := Some(reply.body), currentAdminLoading := false, currentAdminError := None)
      ensures reply.Failure? ==> View() == old(View()).(currentAdminLoading := false,
                                                         currentAdminError := Some(ErrorText(reply.error.message, AdminFailed)))
    {
      currentAdminLoading, currentAdminError := true, None;
      match reply
      case Reply(_, body) =>
        currentAdmin, currentAdminLoading := Some(body), false;
      case Failure(e) =>
        currentAdminError, currentAdminLoading := Some(ErrorText(e.message, AdminFailed)), false;
    }

    method ClearCurrentAdmin()
      modifies this
      ensures View() == old(View()).(currentAdmin := None, currentAdminError := None)
    {
      currentAdmin, currentAdminError := None, None;
    }
  }
}
