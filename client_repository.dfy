/**
 * The client store (`src/services/clientRepository.ts`): a table of rows
 * with a unique `id`, the conversion between rows and clients, and the
 * normalisation `create` and `update` apply to names, phones and notes.
 * The SQL table is modelled as the sequence of its rows.
 */
module ClientRepository {
  import opened Wrappers
  import opened Types
  import opened Text
  import opened Seqs

  /** A row of the `clients` table; a NULL column is `None`. */
  datatype ClientRow = ClientRow(
    id: string,
    name: string,
    phone: Option<string>,
    notes: Option<string>,
    tier: string,
    createdAt: string,
    updatedAt: string)

  datatype CreateClientRequest = CreateClientRequest(name: string, phone: Option<string>, notes: Option<string>, tier: Option<string>)

  /** The fields `update` was given; `None` is a field left undefined. */
  datatype UpdateClientRequest = UpdateClientRequest(name: Option<string>, phone: Option<string>, notes: Option<string>, tier: Option<string>)

  const DEFAULT_TIER: string := "regular"

  /** `rowToClient`: NULL phone and notes become absent, every other column is copied. */
  function RowToClient(row: ClientRow): (c: Client)
    ensures c.id == row.id && c.name == row.name && c.tier == row.tier
    ensures c.createdAt == row.createdAt && c.updatedAt == row.updatedAt
    ensures c.phone.None? <==> row.phone.None?
    ensures c.notes.None? <==> row.notes.None?
  {
    Client(row.id, row.name, row.phone, row.notes, row.tier, row.createdAt, row.updatedAt)
  }

  /** The values `create` and `update` write: an absent phone or notes is NULL. */
  function ClientToRow(c: Client): ClientRow {
    ClientRow(c.id, c.name, c.phone, c.notes, c.tier, c.createdAt, c.updatedAt)
  }

  /** Writing a client and reading it back gives the same client, and the other way round. */
  lemma RowRoundTrip(c: Client, row: ClientRow)
    ensures RowToClient(ClientToRow(c)) == c
    ensures ClientToRow(RowToClient(row)) == row
  {
  }

  /** `value?.trim() || undefined`: absent, or trimmed and absent when that leaves nothing. */
  function Normalised(value: Option<string>): (r: Option<string>)
    ensures r.None? <==> value.None? || IsBlank(value.value)
    ensures r.Some? ==> r.value == Trim(value.value) && r.value != [] && Trim(r.value) == r.value
  {
    if value.None? || IsBlank(value.value) then None
    else
      TrimIdempotent(value.value);
      Some(Trim(value.value))
  }

  /** The client `create` builds. */
  function NewClient(data: CreateClientRequest, id: string, timestamp: string): (c: Client)
    ensures c.id == id && c.name == Trim(data.name)
    ensures c.phone == Normalised(data.phone) && c.notes == Normalised(data.notes)
    ensures data.tier.None? ==> c.tier == DEFAULT_TIER
    ensures data.tier.Some? ==> c.tier == data.tier.value
    ensures c.createdAt == timestamp && c.updatedAt == timestamp
  {
    Client(id, Trim(data.name), Normalised(data.phone), Normalised(data.notes),
      if data.tier.Some? then data.tier.value else DEFAULT_TIER, timestamp, timestamp)
  }

  /**
   * The client `update` builds: a given name is trimmed (even to nothing), a
   * given phone or notes is normalised, a given tier replaces the old one;
   * what is not given is kept, and only `updatedAt` is refreshed besides.
   */
  function UpdatedClient(existing: Client, data: UpdateClientRequest, timestamp: string): (c: Client)
    ensures c.id == existing.id && c.createdAt == existing.createdAt && c.updatedAt == timestamp
    ensures c.name == if data.name.Some? then Trim(data.name.value) else existing.name
    ensures c.phone == if data.phone.Some? then Normalised(data.phone) else existing.phone
    ensures c.notes == if data.notes.Some? then Normalised(data.notes) else existing.notes
    ensures c.tier == if data.tier.Some? then data.tier.value else existing.tier
  {
    existing.(
      name := if data.name.Some? then Trim(data.name.value) else existing.name,
      phone := if data.phone.Some? then Normalised(data.phone) else existing.phone,
      notes := if data.notes.Some? then Normalised(data.notes) else existing.notes,
      tier := if data.tier.Some? then data.tier.value else existing.tier,
      updatedAt := timestamp)
  }

  /** An update that gives nothing only refreshes `updatedAt`. */
  lemma EmptyUpdate(existing: Client, timestamp: string)
    ensures UpdatedClient(existing, UpdateClientRequest(None, None, None, None), timestamp) == existing.(updatedAt := timestamp)
  {
  }

  /** Normalising is idempotent: a stored phone or notes comes back unchanged when given again. */
  lemma NormalisedIdempotent(value: Option<string>)
    ensures Normalised(Normalised(value)) == Normalised(value)
  {
  }

  // ------------------------------------------------------------------- order

  /** `ORDER BY name ASC`, read as code-unit order. */
  predicate ByName(a: Client, b: Client) {
    LexLe(a.name, b.name)
  }

  lemma ByNameOrders()
    ensures TotalPreorder(ByName)
  {
    forall a: Client, b: Client ensures ByName(a, b) || ByName(b, a) {
      LexLeOrders(a.name, b.name, b.name);
    }
    forall a: Client, b: Client, c: Client | ByName(a, b) && ByName(b, c) ensures ByName(a, c) {
      LexLeOrders(a.name, b.name, c.name);
    }
  }

  function Clients(rows: seq<ClientRow>): (r: seq<Client>)
    ensures |r| == |rows|
    ensures forall i :: 0 <= i < |rows| ==> r[i] == RowToClient(rows[i])
  {
    seq(|rows|, i requires 0 <= i < |rows| => RowToClient(rows[i]))
  }

  /** The clients of the rows, ordered by name. */
  function AllByName(rows: seq<ClientRow>): seq<Client> {
    Sort(Clients(rows), ByName)
  }

  /** `getAll` lists every row once, as a client, ordered by name. */
  lemma AllByNameSpec(rows: seq<ClientRow>)
    ensures multiset(AllByName(rows)) == multiset(Clients(rows))
    ensures SortedBy(AllByName(rows), ByName)
  {
    ByNameOrders();
    SortSorted(Clients(rows), ByName);
  }

  // ------------------------------------------------------------------ search

  function LowerAscii(c: char): char {
    if 'A' <= c <= 'Z' then (c as int + 32) as char else c
  }

  /** ASCII case folding: each character with its upper-case ASCII letters lowered. */
  function FoldAscii(s: string): (r: string)
    ensures |r| == |s|
    ensures forall i :: 0 <= i < |s| ==> r[i] == LowerAscii(s[i])
    ensures forall i :: 0 <= i < |s| ==> !('A' <= r[i] <= 'Z')
  {
    seq(|s|, i requires 0 <= i < |s| => LowerAscii(s[i]))
  }

  predicate Contains(s: string, t: string) {
    exists i :: 0 <= i <= |s| && t <= s[i..]
  }

  /** `name LIKE '%q%'`: `q` occurs in the name, ASCII letters matching either case. */
  predicate Like(name: string, q: string) {
    Contains(FoldAscii(name), FoldAscii(q))
  }

  /** The clients `search` lists. */
  function SearchResult(rows: seq<ClientRow>, query: string): seq<Client> {
    if IsBlank(query) then AllByName(rows)
    else Sort(Filter(Clients(rows), (c: Client) => Like(c.name, Trim(query))), ByName)
  }

  /**
   * A blank query lists every client, as `getAll` does; any other lists the
   * clients whose name contains the trimmed query, ordered by name.
   */
  lemma SearchResultSpec(rows: seq<ClientRow>, query: string)
    ensures IsBlank(query) ==> SearchResult(rows, query) == AllByName(rows)
    ensures !IsBlank(query) ==>
      (forall c :: c in SearchResult(rows, query) <==> c in Clients(rows) && Like(c.name, Trim(query)))
    ensures SortedBy(SearchResult(rows, query), ByName)
  {
    ByNameOrders();
    if IsBlank(query) {
      SortSorted(Clients(rows), ByName);
    } else {
      var hits := Filter(Clients(rows), (c: Client) => Like(c.name, Trim(query)));
      SortSorted(hits, ByName);
      SortSameElements(hits, ByName);
    }
  }

  /** Every name matches the empty pattern, and a name matches itself. */
  lemma LikeExamples(name: string)
    ensures Like(name, "")
    ensures Like(name, name)
  {
    assert FoldAscii("") == [];
    assert FoldAscii(name)[0..] == FoldAscii(name);
  }

  // ------------------------------------------------------------------ table

  /** `id` is the table's primary key. */
  predicate UniqueIds(rows: seq<ClientRow>) {
    Pairwise(rows, (x: ClientRow, y: ClientRow) => x.id != y.id)
  }

  /** `DELETE ... WHERE id = ?`: the other rows, in order. */
  function WithoutClient(rows: seq<ClientRow>, id: string): (r: seq<ClientRow>)
    ensures forall x :: x in r <==> x in rows && x.id != id
  {
    Filter(rows, (x: ClientRow) => x.id != id)
  }

  /** Deleting keeps the ids unique. */
  lemma WithoutClientUnique(rows: seq<ClientRow>, id: string)
    requires UniqueIds(rows)
    ensures UniqueIds(WithoutClient(rows, id))
  {
    FilterPairwise(rows, (x: ClientRow) => x.id != id, (x: ClientRow, y: ClientRow) => x.id != y.id);
  }

  /** `UPDATE ... WHERE id = ?`: every row with that id becomes `row`. */
  function Rewritten(rows: seq<ClientRow>, id: string, row: ClientRow): (r: seq<ClientRow>)
    ensures |r| == |rows|
    ensures forall i :: 0 <= i < |rows| ==> r[i] == if rows[i].id == id then row else rows[i]
  {
    seq(|rows|, i requires 0 <= i < |rows| => if rows[i].id == id then row else rows[i])
  }

  /** With unique ids the update rewrites exactly the row found, keeping ids unique when the id is kept. */
  lemma RewrittenUnique(rows: seq<ClientRow>, k: int, row: ClientRow)
    requires UniqueIds(rows) && 0 <= k < |rows| && row.id == rows[k].id
    ensures Rewritten(rows, rows[k].id, row) == rows[k := row]
    ensures UniqueIds(Rewritten(rows, rows[k].id, row))
  {
    var r := Rewritten(rows, rows[k].id, row);
    forall i | 0 <= i < |rows| ensures r[i] == rows[k := row][i] {
      if i != k {
        assert rows[i].id != rows[k].id by {
          if i < k { assert rows[i].id != rows[k].id; } else { assert rows[k].id != rows[i].id; }
        }
      }
    }
  }

  class ClientStore {
    var rows: seq<ClientRow>

    constructor()
      ensures rows == []
    {
      rows := [];
    }

    /** `getAll`. */
    method GetAll() returns (clients: seq<Client>)
      ensures clients == AllByName(rows)
    {
      clients := AllByName(rows);
    }

    /** `getById`: the client of the row with that id, if there is one. */
    method GetById(id: string) returns (found: Option<Client>)
      ensures found.None? <==> forall i :: 0 <= i < |rows| ==> rows[i].id != id
      ensures found.Some? ==> exists i :: 0 <= i < |rows| && rows[i].id == id && found.value == RowToClient(rows[i])
    {
      var k := FindIndex(rows, (x: ClientRow) => x.id == id);
      if k == -1 {
        return None;
      }
      found := Some(RowToClient(rows[k]));
    }

    /** `search`. */
    method Search(query: string) returns (clients: seq<Client>)
      ensures clients == SearchResult(rows, query)
    {
      if IsBlank(query) {
        clients := GetAll();
        return;
      }
      clients := Sort(Filter(Clients(rows), (c: Client) => Like(c.name, Trim(query))), ByName);
    }

    /**
     * `create`: inserts the normalised client and answers it. An id already
     * in the table breaks the primary key: the insert throws, modelled as
     * `None`, and nothing is written.
     */
    method Create(data: CreateClientRequest, id: string, timestamp: string) returns (created: Option<Client>)
      modifies this
      ensures (exists i :: 0 <= i < |old(rows)| && old(rows)[i].id == id) ==> created.None? && rows == old(rows)
      ensures (forall i :: 0 <= i < |old(rows)| ==> old(rows)[i].id != id) ==>
        && created == Some(NewClient(data, id, timestamp))
        && rows == old(rows) + [ClientToRow(NewClient(data, id, timestamp))]
      ensures UniqueIds(old(rows)) ==> UniqueIds(rows)
    {
      var k := FindIndex(rows, (x: ClientRow) => x.id == id);
      if k != -1 {
        return None;
      }
      var client := NewClient(data, id, timestamp);
      rows := rows + [ClientToRow(client)];
      created := Some(client);
    }

    /**
     * `update`: `None` and no write when no row has the id; otherwise the
     * row with that id is rewritten with the updated client, and every
     * other row is left as it was.
     */
    method Update(id: string, data: UpdateClientRequest, timestamp: string) returns (updated: Option<Client>)
      modifies this
      ensures (forall i :: 0 <= i < |old(rows)| ==> old(rows)[i].id != id) ==> updated.None? && rows == old(rows)
      ensures (exists i :: 0 <= i < |old(rows)| && old(rows)[i].id == id) ==>
        var k := FindIndex(old(rows), (x: ClientRow) => x.id == id);
        && updated == Some(UpdatedClient(RowToClient(old(rows)[k]), data, timestamp))
        && |rows| == |old(rows)|
        && (UniqueIds(old(rows)) ==> rows == old(rows)[k := ClientToRow(updated.value)])
        && (forall i :: 0 <= i < |rows| && old(rows)[i].id != id ==> rows[i] == old(rows)[i])
      ensures UniqueIds(old(rows)) ==> UniqueIds(rows)
    {
      var k := FindIndex(rows, (x: ClientRow) => x.id == id);
      if k == -1 {
        return None;
      }
      var client := UpdatedClient(RowToClient(rows[k]), data, timestamp);
      if UniqueIds(rows) {
        RewrittenUnique(rows, k, ClientToRow(client));
      }
      rows := Rewritten(rows, id, ClientToRow(client));
      updated := Some(client);
    }

    /** `delete`: true exactly when some row had the id; those rows are gone, the others kept in order. */
    method Delete(id: string) returns (deleted: bool)
      modifies this
      ensures deleted <==> exists i :: 0 <= i < |old(rows)| && old(rows)[i].id == id
      ensures rows == WithoutClient(old(rows), id)
      ensures UniqueIds(old(rows)) ==> UniqueIds(rows)
    {
      if UniqueIds(rows) {
        WithoutClientUnique(rows, id);
      }
      var remaining := WithoutClient(rows, id);
      deleted := |remaining| < |rows|;
      rows := remaining;
    }
  }
}
