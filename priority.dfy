/** The static icon-family severity table (`priority_icon_map`): a lower rank is a more
    severe condition and wins a (DAY, PERIOD) group. */
module Priority {
  import opened Options

  /** `{icon family: priority}`. */
  const PriorityIconMap: map<string, int> :=
    map["11" := 1, "10" := 2, "09" := 3, "13" := 4, "04" := 5,
        "03" := 6, "02" := 7, "50" := 8, "01" := 9]

  /** The families from most to least severe: thunderstorm, rain, drizzle, snow, three
      kinds of clouds, atmosphere, clear. */
  const Precedence: seq<string> := ["11", "10", "09", "13", "04", "03", "02", "50", "01"]

  /** `icon[:2]`: at most the first two characters. */
  function Family(icon: string): (f: string)
    ensures f <= icon
    ensures |f| == if |icon| < 2 then |icon| else 2
  {
    if |icon| < 2 then icon else icon[..2]
  }

  /** `icon[:2]` looked up in the table; a family the table lacks has no rank (NaN). */
  function Rank(icon: string): (r: Option<int>)
    ensures r.Some? <==> Family(icon) in Precedence
    ensures r.Some? ==> 1 <= r.value <= |Precedence| && Precedence[r.value - 1] == Family(icon)
  {
    var f := Family(icon);
    if f in PriorityIconMap then Some(PriorityIconMap[f]) else None
  }
}
