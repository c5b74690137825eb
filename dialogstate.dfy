/** `useDialogState`: one state record that `open` overwrites with the data
    given (flagged open) and `close` resets to the initial record, plus the
    initial records of the derived hooks. A record is a map from property
    names to values; a property that is missing is `undefined`. */
module DialogState {

  datatype Value = Bool(b: bool) | Text(s: string)

  type DialogData = map<string, Value>

  /** `{ ...data, isOpen: true }`. */
  function Opened(data: DialogData): (s: DialogData)
    ensures "isOpen" in s && s["isOpen"] == Bool(true)
    ensures s.Keys == data.Keys + {"isOpen"}
    ensures forall k :: k in data && k != "isOpen" ==> s[k] == data[k]
  {
    data["isOpen" := Bool(true)]
  }

  class DialogStateHook {
    const initialState: DialogData
    var state: DialogData

    /** `useState(initialState)`. */
    constructor (initial: DialogData)
      ensures initialState == initial && state == initial
    {
      initialState := initial;
      state := initial;
    }

    /** `open(data)`: the whole state is replaced; nothing of the previous
        state survives. */
    method Open(data: DialogData)
      modifies this
      ensures state == Opened(data)
    {
      state := data["isOpen" := Bool(true)];
    }

    /** `close()`: back to exactly the initial state. */
    method Close()
      modifies this
      ensures state == initialState
    {
      state := initialState;
    }
  }

  function AlertDialogInitial(): DialogData
  {
    map["isOpen" := Bool(false), "message" := Text(""), "mantraId" := Text(""),
        "mantraTitle" := Text(""), "action" := Text("")]
  }

  function ReasonDialogInitial(): DialogData
  {
    map["isOpen" := Bool(false), "message" := Text(""), "mantraId" := Text(""), "mantraTitle" := Text("")]
  }

  function MantraDialogInitial(): DialogData
  {
    map["isOpen" := Bool(false), "mode" := Text("create"), "mantraId" := Text("")]
  }

  /** The story dialog's initial state is the mantra dialog's: it has a
      `mantraId` but no `storyId`. */
  function StoryDialogInitial(): DialogData
  {
    map["isOpen" := Bool(false), "mode" := Text("create"), "mantraId" := Text("")]
  }

  /** Every provided initial state is closed. */
  lemma InitialStatesClosed()
    ensures forall d :: d in {AlertDialogInitial(), ReasonDialogInitial(), MantraDialogInitial(), StoryDialogInitial()}
              ==> "isOpen" in d && d["isOpen"] == Bool(false)
    ensures "storyId" !in StoryDialogInitial() && "mantraId" in StoryDialogInitial()
  {
  }

  /** Opening the story dialog for an edit and closing it again forgets the
      story id, and opening twice keeps only what the second call passed. */
  method EditThenClose(storyId: string, other: DialogData) returns (afterClose: DialogData, afterReopen: DialogData)
    ensures "storyId" !in afterClose && afterClose == StoryDialogInitial()
    ensures "storyId" in other <==> "storyId" in afterReopen
  {
    var dialog := new DialogStateHook(StoryDialogInitial());
    dialog.Open(map["mode" := Text("edit"), "storyId" := Text(storyId)]);
    assert dialog.state["storyId"] == Text(storyId);
    dialog.Close();
    afterClose := dialog.state;
    dialog.Open(map["mode" := Text("edit"), "storyId" := Text(storyId)]);
    dialog.Open(other);
    afterReopen := dialog.state;
  }
}
