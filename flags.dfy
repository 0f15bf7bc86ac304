/** How `main` turns the filter flags into the lists handed to the filters:
    the deployments, AZs and collectors flags are comma-separated lists, the
    service-discovery processes flag is a single regular expression. */
module Flags {
  import opened Strings

  const Comma := ','

  /** A comma-separated filter flag as a list: nothing when the flag is empty,
      otherwise every field between commas, empty fields included. */
  function FilterList(flag: string): (filters: seq<string>)
    ensures filters == [] <==> flag == ""
    ensures forall i :: 0 <= i < |filters| ==> Comma !in filters[i]
    ensures Join(filters, Comma) == flag
    ensures flag != "" ==> |filters| == Count(flag, Comma) + 1
  {
    if flag == "" then []
    else
      JoinSplit(flag, Comma);
      Split(flag, Comma)
  }

  /** The service-discovery processes flag: no pattern when empty, otherwise the
      whole flag as the only pattern; a comma inside it is part of the pattern. */
  function ProcessPatterns(regexp: string): (patterns: seq<string>)
    ensures |patterns| <= 1
    ensures patterns == [] <==> regexp == ""
    ensures forall i :: 0 <= i < |patterns| ==> patterns[i] == regexp
  {
    if regexp == "" then [] else [regexp]
  }

  /** The lists given to the deployments, AZs, collectors and processes filters. */
  datatype FilterConfig = FilterConfig(
    deployments: seq<string>,
    azs: seq<string>,
    collectors: seq<string>,
    processes: seq<string>)

  function FiltersFromFlags(deploymentsFlag: string, azsFlag: string, collectorsFlag: string,
                            processesRegexp: string): (c: FilterConfig)
    ensures Join(c.deployments, Comma) == deploymentsFlag
    ensures Join(c.azs, Comma) == azsFlag
    ensures Join(c.collectors, Comma) == collectorsFlag
    ensures |c.processes| <= 1 && (c.processes == [] <==> processesRegexp == "")
    ensures c.deployments == FilterList(deploymentsFlag)
    ensures c.azs == FilterList(azsFlag)
    ensures c.collectors == FilterList(collectorsFlag)
    ensures c.processes == ProcessPatterns(processesRegexp)
  {
    FilterConfig(FilterList(deploymentsFlag), FilterList(azsFlag), FilterList(collectorsFlag),
                 ProcessPatterns(processesRegexp))
  }

  /** Two flags give the same filter list only when they are the same flag. */
  lemma FilterListInjective(a: string, b: string)
    requires FilterList(a) == FilterList(b)
    ensures a == b
  {
  }

  /** The processes flag is never split: a regular expression holding a comma is
      one pattern, where the same text given as a list flag is at least two. */
  lemma {:induction false} ProcessPatternsNotSplit(regexp: string)
    requires Comma in regexp
    ensures ProcessPatterns(regexp) == [regexp]
    ensures |FilterList(regexp)| >= 2
  {
    CountPositive(regexp, Comma);
  }
}
