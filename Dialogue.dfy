/** The dialogue cursor shared by NPC2DCharacter and NPCInteractable: each
    press shows the line under the cursor and moves on; the press after the
    last line closes the dialogue and rewinds to the first. */
module Dialogue {

  /** The cursor after one press over `n` lines. */
  function NextCursor(i: nat, n: nat): nat
  {
    if i < n then i + 1 else 0
  }

  /** What one press displays: the line under the cursor, or nothing when
      the press closes the dialogue. */
  datatype Shown = Line(text: string) | Closed

  function ShownAt(lines: seq<string>, i: nat): Shown
  {
    if i < |lines| then Line(lines[i]) else Closed
  }

  /** The cursor after `k` presses from `i`. */
  function CursorAfter(i: nat, k: nat, n: nat): nat
    decreases k
  {
    if k == 0 then i else CursorAfter(NextCursor(i, n), k - 1, n)
  }

  /** What `k` presses from cursor `i` display, in order: press j shows
      whatever is under the cursor after the j presses before it. */
  function Transcript(lines: seq<string>, i: nat, k: nat): (r: seq<Shown>)
    ensures |r| == k
    ensures forall j :: 0 <= j < k ==> r[j] == ShownAt(lines, CursorAfter(i, j, |lines|))
    decreases k
  {
    if k == 0 then [] else [ShownAt(lines, i)] + Transcript(lines, NextCursor(i, |lines|), k - 1)
  }

  /** Every line, in order, then the close. */
  function FullConversation(lines: seq<string>): (r: seq<Shown>)
    ensures |r| == |lines| + 1
    ensures forall j :: 0 <= j < |lines| ==> r[j] == Line(lines[j])
    ensures r[|lines|] == Closed
  {
    seq(|lines|, j requires 0 <= j < |lines| => Line(lines[j])) + [Closed]
  }

  /** However many presses, the cursor never leaves [0, n], and n + 1
      presses bring it back to where it was. */
  lemma {:induction false} CursorInRange(i: nat, k: nat, n: nat)
    requires i <= n
    ensures CursorAfter(i, k, n) <= n
    ensures CursorAfter(i, k + n + 1, n) == CursorAfter(i, k, n)
    decreases k
  {
    if k > 0 {
      CursorInRange(NextCursor(i, n), k - 1, n);
    } else {
      CursorLap(i, n, i);
    }
  }

  /** From cursor `i`, n + 1 presses go round once: the lap up to n, the
      close back to 0, and i presses up again. */
  lemma {:induction false} CursorLap(i: nat, n: nat, j: nat)
    requires j <= n && i <= n
    ensures CursorAfter(j, n + 1 - j + i, n) == i
    decreases n - j
  {
    if j < n {
      CursorLap(i, n, j + 1);
    } else {
      CountUp(0, i, n);
    }
  }

  /** Below the end the presses just count the cursor up. */
  lemma {:induction false} CountUp(j: nat, k: nat, n: nat)
    requires j + k <= n
    ensures CursorAfter(j, k, n) == j + k
    decreases k
  {
    if k > 0 {
      CountUp(j + 1, k - 1, n);
    }
  }

  /** From a cursor `i`, the rest of the conversation is the remaining lines
      in order followed by the close, after which the cursor is back at 0. */
  lemma {:induction false} RestOfConversation(lines: seq<string>, i: nat)
    requires i <= |lines|
    ensures Transcript(lines, i, |lines| - i + 1) == FullConversation(lines)[i..]
    ensures CursorAfter(i, |lines| - i + 1, |lines|) == 0
    decreases |lines| - i
  {
    if i < |lines| {
      RestOfConversation(lines, i + 1);
      assert FullConversation(lines)[i..] == [Line(lines[i])] + FullConversation(lines)[i + 1..];
    }
  }

  /** `n` lines take `n + 1` presses: all lines in order, then the close,
      and the dialogue starts over from the first line. */
  lemma ConversationCycle(lines: seq<string>)
    ensures Transcript(lines, 0, |lines| + 1) == FullConversation(lines)
    ensures CursorAfter(0, |lines| + 1, |lines|) == 0
  {
    RestOfConversation(lines, 0);
  }

  /** NPCInteractable's dialogue state: the cursor, whether a dialogue is
      open, whether its panel is shown, and the panel's text. */
  datatype Talk = Talk(cursor: nat, active: bool, panel: bool, text: string)

  /** One Interact with both UI references assigned: a closed dialogue opens
      with its panel; then the line under the cursor is shown and the cursor
      moves on, or, past the last line, the dialogue and the panel close and
      the cursor rewinds. */
  function Pressed(t: Talk, lines: seq<string>): Talk
  {
    if t.cursor < |lines| then
      Talk(t.cursor + 1, true, if t.active then t.panel else true, lines[t.cursor])
    else
      Talk(0, false, false, t.text)
  }

  /** `k` Interacts in a row. */
  function Presses(t: Talk, lines: seq<string>, k: nat): Talk
    decreases k
  {
    if k == 0 then t else Presses(Pressed(t, lines), lines, k - 1)
  }

  /** The Interacts move the cursor as the shared cursor rule does, so
      `RestOfConversation` and `ConversationCycle` hold for NPCInteractable;
      and a press shows a line exactly when the cursor was on one. */
  lemma {:induction false} PressesFollowCursor(t: Talk, lines: seq<string>, k: nat)
    ensures Presses(t, lines, k).cursor == CursorAfter(t.cursor, k, |lines|)
    ensures (Pressed(t, lines).active <==> ShownAt(lines, t.cursor).Line?)
    ensures ShownAt(lines, t.cursor).Line? ==> Pressed(t, lines).text == ShownAt(lines, t.cursor).text
    decreases k
  {
    if k > 0 {
      PressesFollowCursor(Pressed(t, lines), lines, k - 1);
    }
  }

  /** With no lines every Interact, however many, opens and closes at once:
      the dialogue ends closed, its panel hidden, the cursor at 0 and the
      text untouched. */
  lemma {:induction false} NoLinesOpensAndCloses(t: Talk, k: nat)
    requires k >= 1
    ensures Presses(t, [], k) == Talk(0, false, false, t.text)
    decreases k
  {
    if k > 1 {
      NoLinesOpensAndCloses(Pressed(t, []), k - 1);
    }
  }

  /** NPC2DCharacter: a 2D NPC that talks while the player is in its trigger. */
  class Character {
    const npcDialogues: seq<string>
    // Which UI references are assigned.
    const hasDialogueUI: bool
    const hasDialogueText: bool
    const hasPromptUI: bool
    const hasPromptText: bool

    var playerInRange: bool
    var currentDialogueIndex: nat
    var dialogueActive: bool     // dialogueUI.activeSelf
    var dialogueText: string
    var promptActive: bool       // promptUI.activeSelf
    var promptText: string

    ghost predicate Valid()
      reads this`currentDialogueIndex
    {
      currentDialogueIndex <= |npcDialogues|
    }

    constructor (lines: seq<string>, ui: bool, text: bool, prompt: bool, promptLabel: bool)
      ensures Valid() && currentDialogueIndex == 0 && !playerInRange
      ensures npcDialogues == lines && hasDialogueUI == ui && hasDialogueText == text
      ensures hasPromptUI == prompt && hasPromptText == promptLabel
    {
      npcDialogues, hasDialogueUI, hasDialogueText, hasPromptUI, hasPromptText := lines, ui, text, prompt, promptLabel;
      playerInRange, currentDialogueIndex := false, 0;
      dialogueActive, dialogueText, promptActive, promptText := true, "", true, "";
    }

    /** Start: both panels hidden when assigned. The camera lookup for the
        billboard is not modelled. */
    method Start()
      modifies this`dialogueActive, this`promptActive
      ensures dialogueActive == (!hasDialogueUI && old(dialogueActive))
      ensures promptActive == (!hasPromptUI && old(promptActive))
    {
      if hasDialogueUI {
        dialogueActive := false;
      }
      if hasPromptUI {
        promptActive := false;
      }
    }

    /** Update: an E press (`ePressed`) advances only in range. */
    method Update(ePressed: bool)
      requires Valid()
      modifies this`dialogueText, this`dialogueActive, this`currentDialogueIndex
      ensures Valid()
      ensures !(playerInRange && ePressed) ==> unchanged(this)
      ensures playerInRange && ePressed && !(hasDialogueUI && hasDialogueText) ==> unchanged(this)
      ensures playerInRange && ePressed && hasDialogueUI && hasDialogueText ==>
        currentDialogueIndex == NextCursor(old(currentDialogueIndex), |npcDialogues|)
        && dialogueActive == ShownAt(npcDialogues, old(currentDialogueIndex)).Line?
        && (ShownAt(npcDialogues, old(currentDialogueIndex)) == Line(dialogueText)
            || (ShownAt(npcDialogues, old(currentDialogueIndex)).Closed? && dialogueText == old(dialogueText)))
    {
      if playerInRange && ePressed {
        ShowNextDialogue();
      }
    }

    /** One press: the line under the cursor and the panel shown, or the
        panel closed and the cursor rewound. Nothing without the panel or
        its text. The sounds are not modelled. */
    method ShowNextDialogue()
      requires Valid()
      modifies this`dialogueText, this`dialogueActive, this`currentDialogueIndex
      ensures Valid()
      ensures !(hasDialogueUI && hasDialogueText) ==> unchanged(this)
      ensures hasDialogueUI && hasDialogueText ==>
        currentDialogueIndex == NextCursor(old(currentDialogueIndex), |npcDialogues|)
        && dialogueActive == ShownAt(npcDialogues, old(currentDialogueIndex)).Line?
        && (ShownAt(npcDialogues, old(currentDialogueIndex)) == Line(dialogueText)
            || (ShownAt(npcDialogues, old(currentDialogueIndex)).Closed? && dialogueText == old(dialogueText)))
    {
      if !hasDialogueUI || !hasDialogueText {
        return;
      }
      if currentDialogueIndex < |npcDialogues| {
        dialogueText := npcDialogues[currentDialogueIndex];
        dialogueActive := true;
        currentDialogueIndex := currentDialogueIndex + 1;
      } else {
        dialogueActive := false;
        currentDialogueIndex := 0;
      }
    }

    /** A collider enters: only the player counts; the prompt appears. */
    method OnTriggerEnter(isPlayer: bool)
      modifies this`playerInRange, this`promptActive, this`promptText
      ensures !isPlayer ==> unchanged(this)
      ensures isPlayer ==> playerInRange && promptActive == (hasPromptUI || old(promptActive))
      ensures isPlayer && hasPromptUI && hasPromptText ==> promptText == "Presiona E para hablar"
      ensures !(isPlayer && hasPromptUI && hasPromptText) ==> promptText == old(promptText)
    {
      if isPlayer {
        playerInRange := true;
        if hasPromptUI {
          promptActive := true;
          if hasPromptText {
            promptText := "Presiona E para hablar";
          }
        }
      }
    }

    /** A collider leaves: only the player counts; prompt and panel hidden,
        cursor rewound. */
    method OnTriggerExit(isPlayer: bool)
      requires Valid()
      modifies this`playerInRange, this`promptActive, this`dialogueActive, this`currentDialogueIndex
      ensures Valid()
      ensures !isPlayer ==> unchanged(this)
      ensures isPlayer ==>
        !playerInRange && currentDialogueIndex == 0
        && promptActive == (!hasPromptUI && old(promptActive))
        && dialogueActive == (!hasDialogueUI && old(dialogueActive))
    {
      if isPlayer {
        playerInRange := false;
        if hasPromptUI {
          promptActive := false;
        }
        if hasDialogueUI {
          dialogueActive := false;
        }
        currentDialogueIndex := 0;
      }
    }
  }

  /** NPCInteractable: its cursor logic (the hover hint is not modelled). */
  class Interactable {
    const dialogueLines: seq<string>
    const hasPanel: bool
    const hasText: bool

    var currentIndex: nat
    var dialogueActive: bool
    var panelActive: bool        // dialoguePanel.activeSelf
    var text: string             // dialogueText.text

    /** The cursor is in range, and an open dialogue has its panel shown. */
    ghost predicate Valid()
      reads this`currentIndex, this`dialogueActive, this`panelActive
    {
      currentIndex <= |dialogueLines| && (dialogueActive ==> panelActive)
    }

    constructor (lines: seq<string>, panel: bool, t: bool)
      ensures Valid() && currentIndex == 0 && !dialogueActive
      ensures dialogueLines == lines && hasPanel == panel && hasText == t
    {
      dialogueLines, hasPanel, hasText := lines, panel, t;
      currentIndex, dialogueActive, panelActive, text := 0, false, false, "";
    }

    /** Interact: nothing without the panel or its text; the first press
        opens the dialogue and the panel; every press shows the next line
        or, past the last, closes. */
    method Interact()
      requires Valid()
      modifies this`currentIndex, this`dialogueActive, this`panelActive, this`text
      ensures Valid()
      ensures !(hasPanel && hasText) ==> unchanged(this)
      ensures hasPanel && hasText ==> TalkOf() == Pressed(old(TalkOf()), dialogueLines)
      ensures hasPanel && hasText ==>
        currentIndex == NextCursor(old(currentIndex), |dialogueLines|)
        && dialogueActive == panelActive == ShownAt(dialogueLines, old(currentIndex)).Line?
        && (ShownAt(dialogueLines, old(currentIndex)).Line? ==> text == dialogueLines[old(currentIndex)])
    {
      if !hasPanel || !hasText {
        return;
      }
      if !dialogueActive {
        dialogueActive := true;
        panelActive := true;
        ShowNextLine();
      } else {
        ShowNextLine();
      }
    }

    /** The next line, or the close past the last one. It uses the panel
        and the text without a check. */
    method ShowNextLine()
      requires Valid() && hasPanel && hasText && dialogueActive
      modifies this`currentIndex, this`dialogueActive, this`panelActive, this`text
      ensures Valid()
      ensures TalkOf() == Pressed(old(TalkOf()), dialogueLines)
      ensures currentIndex == NextCursor(old(currentIndex), |dialogueLines|)
      ensures dialogueActive == panelActive == ShownAt(dialogueLines, old(currentIndex)).Line?
      ensures ShownAt(dialogueLines, old(currentIndex)).Line? ==> text == dialogueLines[old(currentIndex)]
    {
      if currentIndex < |dialogueLines| {
        text := dialogueLines[currentIndex];
        currentIndex := currentIndex + 1;
      } else {
        CloseDialogue();
      }
    }

    /** CloseDialogue: panel hidden, dialogue over, cursor rewound. It uses
        the panel without a check. */
    method CloseDialogue()
      requires hasPanel
      modifies this`currentIndex, this`dialogueActive, this`panelActive
      ensures Valid() && !panelActive && !dialogueActive && currentIndex == 0
    {
      panelActive := false;
      dialogueActive := false;
      currentIndex := 0;
    }

    /** The dialogue state as a value. */
    ghost function TalkOf(): Talk
      reads this`currentIndex, this`dialogueActive, this`panelActive, this`text
    {
      Talk(currentIndex, dialogueActive, panelActive, text)
    }
  }
}
