/** What a task reads as when the file does not say: automatic, with no model and no endpoint. */
module AuxiliaryDefaults {
  import opened Text
  import opened YamlPaths
  import opened Auxiliary
  import W = YamlPathsWritten

  /** The provider is automatic if the file names none, an empty one, or `auto`; any other is the one it names. */
  lemma ProviderIsAutoIff(content: string, task: string)
    ensures var v, config := ReadPath(content, ["auxiliary", task, "provider"]), ReadTask(content, task);
            if v.None? || v.value in {"", "auto"} then config.provider == "auto"
            else config.provider == v.value != "auto"
    ensures var v := ReadPath(content, ["auxiliary", task, "model"]);
            ReadTask(content, task).model == if v.None? then "" else v.value
    ensures var v := ReadPath(content, ["auxiliary", task, "base_url"]);
            ReadTask(content, task).baseUrl == if v.None? then "" else v.value
  {
    hide ReadPath;
  }

  /** In a file that does not mention the block every task reads so. */
  lemma UnmentionedTaskIsAuto(content: string, nodes: seq<W.Node>, n: nat, step: nat, task: string)
    requires W.IsWritten(nodes) && step >= 1 && W.Spoken(SplitLines(content)) == W.Print(nodes, n, step)
    requires W.IsAbsent(nodes, "auxiliary")
    ensures ReadTask(content, task) == TaskConfig(task, "auto", "", "")
  {
    hide ReadPath, W.IsWritten, W.IsAbsent, W.Find, W.Spoken, W.Print;
    forall field ensures ReadPath(content, ["auxiliary", task, field]) == None {
      W.AbsentIsMissed(nodes, ["auxiliary", task, field]);
      W.ReadsTree(content, nodes, n, step, ["auxiliary", task, field]);
    }
  }

  /** A task that the file holds in its place, once, reads as its three values say. */
  lemma NamedTaskIsRead(content: string, nodes: seq<W.Node>, n: nat, step: nat, task: string)
    requires W.IsWritten(nodes) && step >= 1 && W.Spoken(SplitLines(content)) == W.Print(nodes, n, step)
    requires forall field :: field in FIELDS ==> W.IsClear(nodes, ["auxiliary", task, field])
    ensures var provider := W.ValueOf(W.Look(nodes, ["auxiliary", task, "provider"]));
            var model := W.ValueOf(W.Look(nodes, ["auxiliary", task, "model"]));
            var url := W.ValueOf(W.Look(nodes, ["auxiliary", task, "base_url"]));
            ReadTask(content, task) ==
              TaskConfig(task, if provider.None? || provider.value == "" then "auto" else provider.value,
                         if model.None? then "" else model.value, if url.None? then "" else url.value)
  {
    hide ReadPath, W.IsWritten, W.IsClear, W.Look, W.Spoken, W.Print;
    assert FIELDS[0] == "provider" && FIELDS[1] == "model" && FIELDS[2] == "base_url";
    forall field | field in FIELDS
      ensures ReadPath(content, ["auxiliary", task, field]) == W.ValueOf(W.Look(nodes, ["auxiliary", task, field]))
    {
      W.ReadsWhatIsNamed(content, nodes, n, step, ["auxiliary", task, field]);
    }
    assert "provider" in FIELDS && "model" in FIELDS && "base_url" in FIELDS;
  }
}
