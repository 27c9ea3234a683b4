// The facts about one person that `GraphQueries.get_all_facts`
// (app/graph/queries.py) collects from the graph and that the personality
// analyser and the biography generator read: the person's properties and
// one record per job, skill, interest and close connection. Records are
// dicts; a Neo4j row carries every returned column, possibly as None.

module GraphFacts {
  import opened Wrappers
  import opened Json

  datatype Facts = Facts(person: Dict, career: seq<Dict>, skills: seq<Dict>, interests: seq<Dict>,
                         connections: seq<Dict>)

  /** `len(career) + len(skills) + len(interests) + len(connections)`. */
  function FactCount(f: Facts): (n: nat)
    ensures n == 0 <==> f.career == [] && f.skills == [] && f.interests == [] && f.connections == []
  {
    |f.career| + |f.skills| + |f.interests| + |f.connections|
  }

  /** The values of `key` in the records, as `str.join` needs them: all strings, or TypeError. */
  function Texts(records: seq<Dict>, key: string): (r: Result<seq<string>>)
    ensures r.Ok? <==> forall i :: 0 <= i < |records| ==> Get(records[i], key, JStr("")).JStr?
    ensures r.Ok? ==> |r.value| == |records|
                      && forall i :: 0 <= i < |records| ==> r.value[i] == Get(records[i], key, JStr("")).s
    ensures r.Err? ==> r.error == TypeError
  {
    if records == [] then Ok([])
    else
      var first := Get(records[0], key, JStr(""));
      var rest := Texts(records[1..], key);
      assert forall i :: 1 <= i < |records| ==> records[i] == records[1..][i - 1];
      if !first.JStr? then Err(TypeError)
      else if rest.Err? then Err(TypeError)
      else Ok([first.s] + rest.value)
  }
}
