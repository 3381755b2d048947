/** The visibility redaction the broadcast loop applies to the results snapshot before
    sending it to the clients. */
module Redaction {
  import opened Json
  import opened Auth

  /** results.json: user name to (problem name to verdict object). */
  type Results = map<string, map<string, Object>>

  /** One verdict as another user may see it: no details, no warnings. */
  function HideVerdict(v: Object): (r: Object)
    ensures r.Keys == v.Keys - {"warnings"} + {"details"}
    ensures r["details"] == Arr([])
    ensures forall k :: k in v && k != "details" && k != "warnings" ==> r[k] == v[k]
  {
    (v - {"warnings"})["details" := Arr([])]
  }

  /** Hiding is idempotent on a single verdict. */
  lemma HideVerdictIdempotent(v: Object)
    ensures HideVerdict(HideVerdict(v)) == HideVerdict(v)
  {
    assert HideVerdict(HideVerdict(v)).Keys == HideVerdict(v).Keys;
  }

  /** The verdicts of one user as `viewer` may see them. */
  function RedactRow(row: map<string, Object>, owner: string, viewer: Viewer): (r: map<string, Object>)
  {
    if viewer.isAdmin || owner == viewer.name then row
    else map t | t in row :: HideVerdict(row[t])
  }

  /** The whole snapshot as `viewer` may see it. */
  function Redacted(results: Results, viewer: Viewer): (r: Results)
    ensures r.Keys == results.Keys
    ensures forall u :: u in results ==> r[u].Keys == results[u].Keys
  {
    map u | u in results :: RedactRow(results[u], u, viewer)
  }

  /** An administrator sees the snapshot unchanged. */
  lemma AdminSeesAll(results: Results, viewer: Viewer)
    requires viewer.isAdmin
    ensures Redacted(results, viewer) == results
  {
  }

  /** Everyone else sees no details and no warnings of any other user's verdicts. */
  lemma OthersHidden(results: Results, viewer: Viewer, user: string, test: string)
    requires !viewer.isAdmin && user != viewer.name
    requires user in results && test in results[user]
    ensures var v := Redacted(results, viewer)[user][test];
            v["details"] == Arr([]) && "warnings" !in v
  {
  }

  /** A viewer's own verdicts are never touched. */
  lemma OwnVerdictsKept(results: Results, viewer: Viewer)
    requires viewer.name in results
    ensures Redacted(results, viewer)[viewer.name] == results[viewer.name]
  {
  }

  /** No verdict field other than `details` and `warnings` changes. */
  lemma OtherFieldsKept(results: Results, viewer: Viewer, user: string, test: string, field: string)
    requires user in results && test in results[user] && field in results[user][test]
    requires field != "details" && field != "warnings"
    ensures field in Redacted(results, viewer)[user][test]
    ensures Redacted(results, viewer)[user][test][field] == results[user][test][field]
  {
  }

  /** Redacting a redacted snapshot changes nothing more. */
  lemma RedactedIdempotent(results: Results, viewer: Viewer)
    ensures Redacted(Redacted(results, viewer), viewer) == Redacted(results, viewer)
  {
    var once := Redacted(results, viewer);
    var twice := Redacted(once, viewer);
    forall u | u in results
      ensures twice[u] == once[u]
    {
      if !viewer.isAdmin && u != viewer.name {
        forall t | t in results[u]
          ensures twice[u][t] == once[u][t]
        {
          HideVerdictIdempotent(results[u][t]);
        }
      }
    }
  }

  /** The redaction block of the broadcast loop: the nested `for ... in` loops that rewrite
      the snapshot in place, here on a local copy. */
  method Redact(results: Results, viewer: Viewer) returns (result: Results)
    ensures result == Redacted(results, viewer)
  {
    result := results;
    if !viewer.isAdmin {
      var users := results.Keys;
      while users != {}
        invariant users <= results.Keys
        invariant result.Keys == results.Keys
        invariant forall u :: u in users ==> result[u] == results[u]
        invariant forall u :: u in results && u !in users ==>
                    result[u] == RedactRow(results[u], u, viewer)
      {
        var user :| user in users;
        var row := result[user];
        var tests := row.Keys;
        while tests != {}
          invariant tests <= results[user].Keys
          invariant row.Keys == results[user].Keys
          invariant forall t :: t in tests ==> row[t] == results[user][t]
          invariant forall t :: t in results[user] && t !in tests ==>
                      row[t] == RedactRow(results[user], user, viewer)[t]
        {
          var test :| test in tests;
          if user != viewer.name {
            row := row[test := HideVerdict(row[test])];
          }
          tests := tests - {test};
        }
        result := result[user := row];
        users := users - {user};
      }
    }
  }
}
