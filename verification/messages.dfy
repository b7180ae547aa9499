/**
 * Every text the bot sends, as a value: one constructor per message, with the
 * values it is filled in with. `Render` gives each its exact wording.
 */
module Messages {
  import opened Text
  import opened Schema

  datatype Note =
    | AlreadyHasPig(name: string, weight: int)
    | Congratulations(username: string, name: string, weight: int)
    | CreateFailed
    | DatabaseError
    | FeedReport(name: string, growth: int, weight: int)
    | FeedFailed
    | PigInfo(name: string, weight: int, position: int)
    | NoPigHint
    | FoundCard(name: string, owner: string, weight: int, barn: int)
    | NotFound(query: string)
    | OwnCard(name: string, weight: int, barn: int)
    | NoPig
    | EmptyChat
    | TopList(entries: seq<Pig>)
    | AskName
    | NameTooLong
    | Renamed(name: string)
    | Christened(name: string)
    | Oops
    | UnknownPigCommand
    | NotYourGrow
    | NotYourPig
    | UnknownButton
    | Ate(name: string, weight: int)
    | FullCard(name: string, weight: int, barn: int, pigsty: int, vetclinic: int, pills: int, poisoned: bool)
    | Blocked
    | Help(lines: seq<string>)

  function GrowthText(g: int): string {
    if g > 0 then "поправился на " + FormatInt(g) + " кг"
    else if g < 0 then "уменьшился на " + FormatInt(-g) + " кг"
    else "обосрался и нихуя не прибавил"
  }

  /** 🥇, 🥈 and 🥉 for the first three places, 🏅 below. */
  function Medal(position: int): string {
    if position == 1 then "🥇" else if position == 2 then "🥈" else if position == 3 then "🥉" else "🏅"
  }

  function TopLine(position: int, p: Pig): string {
    Medal(position) + " " + FormatInt(position) + ". " + p.name + " - " + FormatInt(p.weight)
      + " кг (владелец: " + p.ownerName + ") 🐖"
  }

  /** One line per entry, numbered from 1. */
  function TopLines(entries: seq<Pig>): (lines: seq<string>)
    ensures |lines| == |entries|
  {
    seq(|entries|, i requires 0 <= i < |entries| => TopLine(i + 1, entries[i]))
  }

  /**
   * The line at index `i` shows place `i + 1`: the gold, silver and bronze medals
   * on the first three lines and 🏅 on every later one, then the pig's name,
   * weight and owner.
   */
  lemma TopLineAt(entries: seq<Pig>, i: int)
    requires 0 <= i < |entries|
    ensures TopLines(entries)[i]
         == (if i == 0 then "🥇" else if i == 1 then "🥈" else if i == 2 then "🥉" else "🏅")
            + " " + FormatInt(i + 1) + ". " + entries[i].name + " - " + FormatInt(entries[i].weight)
            + " кг (владелец: " + entries[i].ownerName + ") 🐖"
  {
  }

  function Render(n: Note): string {
    match n
    case AlreadyHasPig(name, w) => "У вас уже есть свинья: " + name + " (вес: " + FormatInt(w) + ")"
    case Congratulations(u, name, w) => "🐷 Поздравляем! " + u + " создал свинью: " + name + " (вес: " + FormatInt(w) + ")"
    case CreateFailed => "Ошибка при создании свиньи"
    case DatabaseError => "Ошибка базы данных"
    case FeedReport(name, g, w) =>
      "🐖 Ваш " + name + " " + GrowthText(g) + " \n💪 Теперь он весит " + FormatInt(w) + " кг.\n\n"
        + "                    "
    case FeedFailed => "Ошибка при кормлении свиньи"
    case PigInfo(name, w, pos) => "🐖 Ваш " + name + " весит " + FormatInt(w) + " кг\n📊 Место в топе: " + FormatInt(pos) + "\n"
    case NoPigHint => "У вас нет свиньи! Создайте её командой /pig <имя>"
    case FoundCard(name, owner, w, barn) =>
      "🐷 " + name + "\n👤 Владелец: " + owner + "\n💪 Вес: " + FormatInt(w) + "\n🏠 Сарай: " + FormatInt(barn)
    case NotFound(q) => "Свинья с именем '" + q + "' не найдена"
    case OwnCard(name, w, barn) => "🐷 Ваша свинья: " + name + "\n💪 Вес: " + FormatInt(w) + "\n🏠 Сарай: " + FormatInt(barn)
    case NoPig => "У вас нет свиньи!"
    case EmptyChat => "В этом чате пока нет свиней 🐖"
    case TopList(entries) => "🏆 Топ 5 свиней в чате:\n" + Join("\n", TopLines(entries))
    case AskName => "Введи имя, еблан"
    case NameTooLong => "У тебя хряк весит меньше, чем твое имя. Придумай что-то короче 32 буковок, блядина."
    case Renamed(name) => "Теперь вашего хряка зовут " + name
    case Christened(name) => "Создана новая свинья с именем '" + name + "'! 🐷"
    case Oops => "Какая-то хуйня случилась. Пиши админу, блять"
    case UnknownPigCommand => "Неизвестная команда свиньи"
    case NotYourGrow => "🖕🤣 Это не твой гров!"
    case NotYourPig => "🖕🤣 Это не твой хряк!"
    case UnknownButton => "Неизвестная команда"
    case Ate(name, w) => "🐷 " + name + " съел корм! Вес: " + FormatInt(w)
    case FullCard(name, w, barn, pigsty, vet, pills, poisoned) =>
      "🐷 Ваша свинья: " + name + "\n💪 Вес: " + FormatInt(w) + "\n🏠 Сарай: " + FormatInt(barn)
        + "\n🐖 Свинарник: " + FormatInt(pigsty) + "\n🏥 Ветклиника: " + FormatInt(vet)
        + "\n🧪 Таблетки: " + FormatInt(pills) + "\n📊 Статус: " + (if poisoned then "🤢 Отравлена" else "😊 Здорова")
    case Blocked => "Ваш нахрюк заблокирован ❌"
    case Help(lines) => "Available commands:\n" + (if lines == [] then "No commands available" else Join("\n", lines))
  }

  lemma Unwrap(a: string, x: string, c: string)
    ensures (a + x + c)[|a|..|a + x + c| - |c|] == x
  {
  }

  lemma GrowthWords(g: int)
    ensures g > 0 ==> GrowthText(g)[0] == 'п'
    ensures g < 0 ==> GrowthText(g)[0] == 'у'
    ensures g == 0 ==> GrowthText(g)[0] == 'о'
  {
  }

  /** The growth report names the growth exactly: different growths read differently. */
  lemma GrowthTextInjective(a: int, b: int)
    ensures GrowthText(a) == GrowthText(b) ==> a == b
  {
    if GrowthText(a) == GrowthText(b) {
      GrowthWords(a);
      GrowthWords(b);
      if a > 0 {
        Unwrap("поправился на ", FormatInt(a), " кг");
        Unwrap("поправился на ", FormatInt(b), " кг");
        FormatIntInjective(a, b);
      } else if a < 0 {
        Unwrap("уменьшился на ", FormatInt(-a), " кг");
        Unwrap("уменьшился на ", FormatInt(-b), " кг");
        FormatIntInjective(-a, -b);
      }
    }
  }
}
