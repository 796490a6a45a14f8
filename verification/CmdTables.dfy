/** The keyword list and the two tables of the command machine (`keyword`, `cmd_new_state` and
    `cmd_action` of `cmd_fsm.c`), written row by row with each row's usual entry last. */
module CmdTables {
  const CMD_TOKENS := 41
  const CMD_STATES := 35

  // rows that are not keywords
  const INT_TOKEN := 35
  const STR_TOKEN := 36
  const OTHER_TOKEN := 37

  predicate IsKeyword(t: nat) {
    t < INT_TOKEN || OTHER_TOKEN < t < CMD_TOKENS
  }

  function Keyword(t: nat): string
    requires t < CMD_TOKENS
  {
    match t
    case 0 => "temp"
    case 1 => "*"
    case 2 => "humid"
    case 3 => "schedule"
    case 4 => "?"
    case 5 => "display"
    case 6 => "yes"
    case 7 => "cancel"
    case 8 => "replace"
    case 9 => "sedit"
    case 10 => "delete"
    case 11 => "active"
    case 12 => "on"
    case 13 => "off"
    case 14 => "clear"
    case 15 => "status"
    case 16 => "time"
    case 17 => "sensor"
    case 18 => "cycle"
    case 19 => "ipc"
    case 20 => "show"
    case 21 => "save"
    case 22 => "template"
    case 23 => "hide"
    case 24 => "load"
    case 25 => "set"
    case 26 => "q"
    case 27 => "done"
    case 28 => "back"
    case 29 => "system"
    case 30 => "channel"
    case 31 => "ssch"
    case 32 => "wsch"
    case 33 => "slib"
    case 34 => "tlib"
    case 35 => "INT"
    case 36 => "STR"
    case 37 => "OTHER"
    case 38 => "slist"
    case 39 => "group"
    case _ => "description"
  }

  /** Next state on token row `t` in state `s`. */
  function NewState(t: nat, s: nat): nat
    requires t < CMD_TOKENS && s < CMD_STATES
  {
    match t
    case 0 /* temp */ => if s == 22 || s == 23 then 0 else if s == 24 then 26 else s
    case 1 /* star */ => if s == 5 || s == 8 then 9 else if s == 7 then 8 else if s == 9 then 4
        else if s == 22 || s == 23 then 0 else s
    case 2 /* humid */ => if s == 5 || s == 7 || s == 22 || s == 23 then 0 else if s == 24 then 27 else s
    case 3 /* schedule */ => if s == 0 then 4 else if s == 5 || s == 22 || s == 23 then 0 else if s == 6 then 11
        else if s == 7 then 23 else if s == 12 then 28 else s
    case 4 /* ? */ => s
    case 5 /* display */ => if s == 30 then 13 else s
    case 6 /* yes */ => if s == 2 || s == 5 || 7 <= s <= 9 then 0 else if s == 12 then 4 else s
    case 7 /* cancel */ => if 1 <= s <= 5 || s == 13 || 29 <= s <= 32 then 0 else if 6 <= s <= 12 then 4
        else if s == 24 || s == 26 || s == 27 then 8 else s
    case 8 /* replace */ => if s == 7 then 0 else s
    case 9 /* sedit */ => if s == 0 then 29 else if s == 29 then 30 else s
    case 10 /* delete */ => if s == 4 then 12 else if s == 6 || s == 24 then 4 else if s == 30 then 0 else s
    case 11 /* active */ => if s == 31 then 32 else s
    case 12 /* on */ => if s == 1 then 0 else if s == 13 then 30 else if s == 24 then 4 else s
    case 13 /* off */ => if s == 1 then 0 else if s == 13 then 30 else if s == 24 then 4 else s
    case 14 /* clear */ => if s == 21 then 0 else s
    case 15 /* status */ => s
    case 16 /* time */ => if s == 1 then 0 else s
    case 17 /* sensor */ => if s == 1 || s == 22 || s == 23 then 0 else s
    case 18 /* cycle */ => if s == 1 then 2 else if s == 22 || s == 23 then 0 else s
    case 19 /* ipc */ => if s == 6 || s == 7 || s == 12 then 4 else if s == 22 || s == 23 then 0 else s
    case 20 /* show */ => if s == 1 || s == 22 || s == 23 then 0 else if s == 30 then 31 else if s == 31 then 33
        else s
    case 21 /* save */ => if s == 4 then 6 else if s == 6 then 4 else if s == 7 then 5 else if s == 30 then 29
        else s
    case 22 /* template */ => if s == 6 then 10 else if s == 7 then 22 else if s == 12 then 25
        else if s == 22 || s == 23 then 0 else s
    case 23 /* hide */ => if s == 1 || s == 22 || s == 23 then 0 else if s == 30 then 32 else if s == 31 then 34
        else s
    case 24 /* load */ => if s == 4 then 7 else if s == 22 || s == 23 then 0 else s
    case 25 /* set */ => if s == 4 then 5 else s
    case 26 /* q */ => if 2 <= s <= 7 then 0 else s
    case 27 /* done */ => if s == 6 || s == 10 || s == 12 || s == 26 || s == 27 then 4 else if s == 11 then 6
        else if s == 28 then 28 else if s == 31 then 31 else if s == 32 then 32 else if s == 33 then 33
        else if s == 34 then 34 else 0
    case 28 /* back */ => if s == 0 || s == 1 || s == 4 || s == 29 then 0 else if s == 2 || s == 21 then 1
        else if s == 3 then 2 else if s == 9 then 5 else if s == 10 || s == 11 then 6
        else if s == 13 || s == 31 || s == 32 then 30 else if s == 14 then 13 else if s == 15 then 14
        else if s == 16 then 15 else if s == 17 then 16 else if s == 18 then 17 else if s == 19 then 18
        else if s == 20 then 19 else if s == 22 || s == 23 then 7 else if s == 24 then 8
        else if s == 25 || s == 28 then 12 else if s == 26 || s == 27 then 24 else if s == 30 then 29
        else if s == 33 then 33 else if s == 34 then 34 else 4
    case 29 /* system */ => if s == 6 || s == 7 then 4 else s
    case 30 /* channel */ => if s == 21 then 0 else s
    case 31 /* ssch */ => s
    case 32 /* wsch */ => s
    case 33 /* slib */ => s
    case 34 /* tlib */ => s
    case 35 /* INT */ => if s == 0 then 1 else if s == 2 then 3 else if s == 3 || s == 20 || s == 21 then 0
        else if s == 4 then 8 else if s == 5 then 9 else if s == 7 then 21 else if s == 8 then 24
        else if s == 9 || s == 22 || s == 23 || 25 <= s <= 27 then 4 else if s == 13 then 14
        else if s == 14 then 15 else if s == 15 then 16 else if s == 16 then 17 else if s == 17 then 18
        else if s == 18 then 19 else if s == 19 then 20 else if s == 29 then 30 else if s == 30 then 31 else s
    case 36 /* STR */ => if s == 1 || 14 <= s <= 20 || s == 22 || s == 23 then 0
        else if s == 10 || s == 11 then 4 else if s == 31 || s == 32 then 30 else s
    case 37 /* OTHER */ => if 17 <= s <= 20 || s == 22 || s == 23 then 0 else s
    case 38 /* slist */ => if s == 31 then 32 else s
    case 39 /* group */ => if s == 30 then 31 else s
    case _ /* description */ => if s == 30 then 32 else s
  }

  /** Number of the action routine on token row `t` in state `s`. */
  function ActionOf(t: nat, s: nat): nat
    requires t < CMD_TOKENS && s < CMD_STATES
  {
    match t
    case 0 /* temp */ => if s == 24 then 38 else 7
    case 1 /* star */ => if s == 5 then 32 else if s == 6 || s == 9 then 31 else 7
    case 2 /* humid */ => if s == 24 then 37 else 7
    case 3 /* schedule */ => if s == 0 then 0 else if s == 1 then 8 else if s == 6 then 52 else 7
    case 4 /* ? */ => if s == 34 then 7 else 1
    case 5 /* display */ => if s == 30 then 74 else 7
    case 6 /* yes */ => if s == 1 || s == 4 || s == 7 then 34 else if s == 20 then 48 else 7
    case 7 /* cancel */ => 34
    case 8 /* replace */ => if s == 4 then 39 else 7
    case 9 /* sedit */ => if s == 0 || s == 30 then 0 else 7
    case 10 /* delete */ => if s == 4 then 50 else if s == 12 || s == 24 then 24 else 7
    case 11 /* active */ => 7
    case 12 /* on */ => if s == 1 then 9 else if s == 13 then 71 else if s == 24 then 22 else 7
    case 13 /* off */ => if s == 1 then 10 else if s == 12 || s == 24 then 23 else if s == 13 then 72 else 7
    case 14 /* clear */ => if s == 4 then 33 else if s == 21 then 18 else 7
    case 15 /* status */ => if 28 <= s <= 34 then 7 else 6
    case 16 /* time */ => if s == 1 then 11 else if 28 <= s <= 34 then 7 else 2
    case 17 /* sensor */ => if s == 0 then 12 else 7
    case 18 /* cycle */ => if s == 1 then 13 else 7
    case 19 /* ipc */ => if s == 6 then 25 else if s == 7 then 19 else 7
    case 20 /* show */ => if s == 1 then 76 else if s == 30 then 0 else 7
    case 21 /* save */ => if s == 4 then 50 else if s == 30 then 73 else 7
    case 22 /* template */ => if s == 6 then 53 else if s == 7 || s == 12 then 63 else 7
    case 23 /* hide */ => if s == 1 then 75 else if s == 30 then 0 else 7
    case 24 /* load */ => if s == 4 then 50 else 7
    case 25 /* set */ => if s == 3 then 1 else if s == 4 then 59 else 7
    case 26 /* q */ => 3
    case 27 /* done */ => 34
    case 28 /* back */ => 34
    case 29 /* system */ => if 29 <= s <= 34 then 7 else 66
    case 30 /* channel */ => if s == 30 then 21 else 7
    case 31 /* ssch */ => if 29 <= s <= 34 then 7 else 57
    case 32 /* wsch */ => if 29 <= s <= 34 then 7 else 58
    case 33 /* slib */ => if 29 <= s <= 34 then 7 else 56
    case 34 /* tlib */ => if 29 <= s <= 34 then 7 else 55
    case 35 /* INT */ => if s == 0 then 4 else if s == 2 then 16 else if s == 3 then 17
        else if s == 4 || s == 6 then 20 else if s == 5 then 30 else if s == 8 || s == 11 then 21
        else if s == 9 then 29 else if s == 13 then 41 else if s == 14 then 42 else if s == 15 then 43
        else if s == 16 then 44 else if s == 17 then 45 else if s == 18 then 46 else if s == 19 then 47
        else if s == 21 then 49 else if s == 22 then 61 else if s == 25 then 14 else if s == 26 then 27
        else if s == 27 then 28 else if s == 29 then 68 else 7
    case 36 /* STR */ => if s == 1 then 5 else if s == 10 then 51 else if s == 31 then 69
        else if s == 32 then 70 else 7
    case 37 /* OTHER */ => if s == 0 || s == 7 then 8 else 7
    case 38 /* slist */ => if s == 0 then 40 else 65
    case 39 /* group */ => if s == 30 then 0 else 7
    case _ /* description */ => if s == 30 then 0 else 7
  }
}
