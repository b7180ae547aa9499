/** The inline keyboards attached to pig cards and feeding results. */
module Keyboards {
  import opened Text
  import opened Transport

  /** Under a pig card: feed this user's pig, or delete the card and the command. */
  function PigKeyboard(user: int, commandMessage: int): Keyboard {
    [
      [Button("🐷 ГРОВИМ!", "grow:" + FormatInt(user))],
      [Button("🗑 Удалить", "remove:" + FormatInt(commandMessage))]
    ]
  }

  /** Under a feeding result: back to this user's pig card. */
  function GrowKeyboard(user: int): Keyboard {
    [[Button("🔙 Назад", "back:" + FormatInt(user))]]
  }
}
