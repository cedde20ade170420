/** The lookup server's database object: its tables, changed in place, and the
    loops over rows and batches. */
module LookupDatabaseObject {
  import opened Common
  import opened Json
  import opened SigningData
  import opened ObjectHandler
  import opened LookupStore
  import PageCursor

  class LookupDatabase {
    var rows: map<Text, ObjectRow>
    var lastNum: nat
    var verifiers: map<nat, VerifierRow>
    var signatures: map<(nat, nat), SignatureRow>

    constructor ()
      ensures Model() == Db(map[], 0, map[], map[])
    {
      rows := map[];
      lastNum := 0;
      verifiers := map[];
      signatures := map[];
    }

    function Model(): Db
      reads this
    {
      Db(rows, lastNum, verifiers, signatures)
    }

    method Insert(uri: Text, json: Json, typ: ObjectType, aux: Json)
      modifies this
      ensures Model() == InsertObject(old(Model()), uri, json, typ, aux)
    {
      lastNum := lastNum + 1;
      rows := rows[uri := ObjectRow(lastNum, uri, typ, json, aux)];
    }

    method AddSignature(verifier: nat, num: nat, sig: Signature, time: Json)
      modifies this
      ensures Model() == InsertSignature(old(Model()), verifier, num, sig, time)
    {
      signatures := signatures[(verifier, num) := SignatureRow(sig, time)];
    }

    /** `get_objects_page`, for actors: each row of the page once. */
    method GetActorsPage(page: nat) returns (list: seq<ObjectRow>)
      requires forall u :: u in rows ==> rows[u].uri == u
      ensures NoDup(list) && forall r :: r in list <==> r in ObjectsPage(Model(), page)
    {
      list := [];
      var left := rows.Keys;
      while left != {}
        invariant left <= rows.Keys && NoDup(list)
        invariant forall r :: r in list <==> r.uri in rows && r.uri !in left && rows[r.uri] == r && OnPage(r, page)
        decreases |left|
      {
        var u :| u in left;
        left := left - {u};
        if OnPage(rows[u], page) { list := list + [rows[u]]; }
      }
    }

    /** `get_page_count`: no count when there are no rows. */
    method GetPageCount() returns (count: Option<nat>)
      ensures count == PageCursor.PageCount(Model())
    {
      if rows == map[] { return None; }
      var highest := 0;
      var left := rows.Keys;
      while left != {}
        invariant left <= rows.Keys
        invariant forall u :: u in rows && u !in left ==> rows[u].num <= highest
        invariant highest == 0 || exists u :: u in rows && rows[u].num == highest
        decreases |left|
      {
        var u :| u in left;
        left := left - {u};
        if rows[u].num > highest { highest := rows[u].num; }
      }
      assert highest == PageCursor.MaxNum(rows);
      return Some((highest + PAGE_SIZE - 1) / PAGE_SIZE);
    }

    /** `add_signatures` when nothing else writes meanwhile. */
    method AddSignatures(scheme: Scheme, verifier: nat, key: Key, batch: seq<Submission>)
      modifies this
      ensures Model() == LookupStore.AddSignatures(scheme, old(Model()), verifier, key, batch)
    {
      hide Verify;
      assert batch[0..] == batch;
      for i := 0 to |batch|
        invariant LookupStore.AddSignatures(scheme, Model(), verifier, key, batch[i..])
               == LookupStore.AddSignatures(scheme, old(Model()), verifier, key, batch)
      {
        var x := batch[i];
        assert batch[i..][0] == x && batch[i..][1..] == batch[i + 1..];
        if x.NotADict? { continue; }
        if x.uri.None? { return; }
        if x.uri.value !in rows { continue; }
        var row := rows[x.uri.value];
        if x.sig.None? || x.time.None? { return; }
        var verdict := Verify(scheme, row.json, row.aux, key, x.sig.value, x.time.value);
        if verdict.Error? { return; }
        if verdict.Valid? { AddSignature(verifier, row.num, x.sig.value, x.time.value); }
      }
      assert batch[|batch|..] == [];
    }
  }
}
