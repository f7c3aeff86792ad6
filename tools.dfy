/** The provider capability flags (`LLMTools`, provider/mod.rs) and the tool
    list shown in the options popover (tool_list_popover.rs). */
module Tools {
  import opened Wrappers

  /** The tools the popover lists, in declaration order. */
  datatype LlmToolEnum = Search

  /** strum's `FromRepr`: the variant with that discriminant, if any. */
  function FromRepr(index: nat): (tool: Option<LlmToolEnum>)
    ensures tool.Some? <==> index == 0
    ensures tool.Some? ==> tool.value == Search
  {
    if index == 0 then Some(Search) else None
  }

  /** strum's `EnumIter`: every variant, in declaration order. */
  const AllTools: seq<LlmToolEnum> := [Search]

  /** The `tools` table of the configuration. */
  datatype ToolOptions = ToolOptions(searchDefault: Option<bool>)

  /** The search flag `LLMTools::new` starts from: the configured default, false
      when the table or the entry is absent. */
  function SearchDefault(tools: Option<ToolOptions>): (search: bool)
    ensures search <==> tools.Some? && tools.value.searchDefault == Some(true)
  {
    match tools
    case None => false
    case Some(options) => if options.searchDefault.Some? then options.searchDefault.value else false
  }

  /** The search flag after `merge`: set when either side has it. */
  function MergedSearch(search: bool, other: bool): (r: bool)
    ensures r <==> search || other
  {
    if other then true else search
  }

  /** The search flag after `toggle(item)`. */
  function ToggledSearch(search: bool, item: LlmToolEnum): (r: bool)
    ensures r != search
  {
    match item
    case Search => !search
  }

  class LLMTools {
    var search: bool

    /** `LLMTools::new`, from the configuration's `tools` table. */
    constructor (tools: Option<ToolOptions>)
      ensures search == SearchDefault(tools)
    {
      search := SearchDefault(tools);
    }

    /** `merge`: switches search on when `other` has it, never off. */
    method Merge(other: LLMTools)
      modifies this
      ensures search == MergedSearch(old(search), old(other.search))
    {
      if other.search {
        search := true;
      }
    }

    /** `toggle`: flips the flag of `item` in place. */
    method Toggle(item: LlmToolEnum)
      modifies this
      ensures search == ToggledSearch(old(search), item)
    {
      match item
      case Search =>
        search := !search;
    }
  }

  /** Merging never switches search off, and switches it on exactly when the other side has it. */
  lemma MergeMonotone(search: bool, other: bool)
    ensures search ==> MergedSearch(search, other)
    ensures MergedSearch(search, other) == (search || other)
  {
  }

  /** Merging the same flags twice is merging them once; merging default flags changes nothing. */
  lemma MergeIdempotent(search: bool, other: bool)
    ensures MergedSearch(MergedSearch(search, other), other) == MergedSearch(search, other)
    ensures MergedSearch(search, false) == search
  {
  }

  /** Toggling the same tool twice restores the flag. */
  lemma ToggleInvolution(search: bool, item: LlmToolEnum)
    ensures ToggledSearch(ToggledSearch(search, item), item) == search
  {
  }

  /** A rendered entry of the popover list. */
  datatype ListItem = ListItem(text: string, green: bool)

  function DisplayName(item: LlmToolEnum): string {
    match item
    case Search => "Web Search"
  }

  /** `From<LlmToolItem> for ListItem`: a check mark and green when the tool is
      on, an empty box when it is off. Reading the flags changes nothing. */
  function ToolListItem(item: LlmToolEnum, tools: LLMTools): (r: ListItem)
    reads tools
    ensures r.green == tools.search
    ensures r.text == (if tools.search then " ✓ " else " ☐ ") + DisplayName(item)
  {
    var activated := match item case Search => tools.search;
    if activated then ListItem(" ✓ " + DisplayName(item), true)
    else ListItem(" ☐ " + DisplayName(item), false)
  }

  /** The items `llm_options_popup` lists: one per tool, in `iter` order. */
  function PopupItems(tools: LLMTools): (items: seq<ListItem>)
    reads tools
    ensures |items| == |AllTools|
    ensures forall i :: 0 <= i < |items| ==> items[i] == ToolListItem(AllTools[i], tools)
  {
    seq(|AllTools|, i requires 0 <= i < |AllTools| reads tools => ToolListItem(AllTools[i], tools))
  }

  /** The popover lists exactly one entry, Web Search, labelled by the flag. */
  lemma PopupListsWebSearch(tools: LLMTools)
    ensures PopupItems(tools) == [ListItem(if tools.search then " ✓ Web Search" else " ☐ Web Search", tools.search)]
    ensures FromRepr(0) == Some(AllTools[0])
  {
    var items := PopupItems(tools);
    assert items[0] == ToolListItem(Search, tools);
    assert " ✓ " + "Web Search" == " ✓ Web Search" && " ☐ " + "Web Search" == " ☐ Web Search";
    assert items == [items[0]];
  }
}
