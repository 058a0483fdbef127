/** The script-filter list handed to the launcher UI (internal/alfred.go). */
module Alfred {
  import opened Wrappers

  datatype Icon = Icon(path: string)

  /**
   * One row of the list. `icon` and `valid` are Go pointers: None is nil,
   * which the JSON output omits.
   */
  datatype Item = Item(title: string, subtitle: string, arg: string, icon: Option<Icon>, valid: Option<bool>)

  /** Go's zero value `Item{}`. */
  const ZeroItem := Item("", "", "", None, None)

  const ErrorPrefix := "Error: "
  const ErrorSubtitle := "Please check the logs for details"

  /** The row AddErrorItem appends: not selectable, no argument, no icon. */
  function ErrorItem(message: string): Item
  {
    Item(ErrorPrefix + message, ErrorSubtitle, "", None, Some(false))
  }

  /** The message can be read back from an error row's title. */
  lemma ErrorMessageRecoverable(m1: string, m2: string)
    requires ErrorItem(m1).title == ErrorItem(m2).title
    ensures m1 == m2
  {
    assert m1 == ErrorItem(m1).title[|ErrorPrefix|..];
    assert m2 == ErrorItem(m2).title[|ErrorPrefix|..];
  }

  /** An append-only list of rows. */
  class ScriptFilter {
    var items: seq<Item>

    /** NewScriptFilter: an empty (never nil) list. */
    constructor ()
      ensures items == []
    {
      items := [];
    }

    method AddItem(item: Item)
      modifies this
      ensures items == old(items) + [item]
    {
      items := items + [item];
    }

    method AddErrorItem(message: string)
      modifies this
      ensures items == old(items) + [ErrorItem(message)]
      ensures |items| == |old(items)| + 1 && items[..|old(items)|] == old(items)
      ensures items[|items| - 1].title == ErrorPrefix + message
      ensures items[|items| - 1].subtitle == ErrorSubtitle
      ensures items[|items| - 1].arg == "" && items[|items| - 1].icon == None
      ensures items[|items| - 1].valid == Some(false)
    {
      var valid := false;
      AddItem(Item(ErrorPrefix + message, ErrorSubtitle, "", None, Some(valid)));
    }
  }

  /** What the error-path tests observe: a fresh list with one error row. */
  method ErrorListExample() returns (sf: ScriptFilter)
    ensures |sf.items| == 1
    ensures sf.items[0].title == "Error: Test error" && sf.items[0].valid == Some(false)
  {
    sf := new ScriptFilter();
    sf.AddErrorItem("Test error");
  }
}
