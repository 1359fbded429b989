/**
 * The constant tables of utils.py: operator labels, the symbol substitution,
 * the operators each value type allows, the filter catalog, the filters whose
 * values are user names, and the totals options.
 *
 * Python dictionaries keep insertion order and the lookups of the source scan
 * them in that order, so the tables the source scans are sequences here.
 */
module Catalog {
  import opened Wrappers

  /** One `key: label` item of OPERATOR_LABELS. */
  datatype OperatorEntry = OperatorEntry(key: string, caption: string)

  /** One `[label, id]` row of a filter's value table. */
  datatype ValueRow = ValueRow(caption: string, id: string)

  /**
   * One item of AVAILABLE_FILTERS. `values` is None both where the table says
   * `"values": None` and where it has no "values" key (`.get` gives None for both);
   * `Some([])` is the empty list of the last two entries.
   */
  datatype FilterEntry = FilterEntry(key: string, valueType: string, name: string,
                                     remote: bool, values: Option<seq<ValueRow>>)

  /** OPERATOR_LABELS, in table order, in the source's four groups of operators. */
  const OperatorLabels: seq<OperatorEntry> := GeneralOperators + DateOperators + TextOperators + RelationOperators

  /** Equality, presence and comparison operators (utils.py:11-19). */
  const GeneralOperators: seq<OperatorEntry> := [
    OperatorEntry("=", "соответствует"),
    OperatorEntry("!", "не соответствует"),
    OperatorEntry("o", "открыто"),
    OperatorEntry("c", "закрыто"),
    OperatorEntry("!*", "отсутствует"),
    OperatorEntry("*", "все"),
    OperatorEntry(">=", ">="),
    OperatorEntry("<=", "<="),
    OperatorEntry("><", "между")]

  /** Relative date operators (utils.py:20-38). */
  const DateOperators: seq<OperatorEntry> := [
    OperatorEntry("<t+", "менее чем"),
    OperatorEntry(">t+", "более чем"),
    OperatorEntry("><t+", "в следующие дни"),
    OperatorEntry("t+", "в"),
    OperatorEntry("nd", "завтра"),
    OperatorEntry("t", "сегодня"),
    OperatorEntry("ld", "вчера"),
    OperatorEntry("nw", "следующая неделя"),
    OperatorEntry("w", "на этой неделе"),
    OperatorEntry("lw", "прошлая неделя"),
    OperatorEntry("l2w", "прошлые 2 недели"),
    OperatorEntry("nm", "следующий месяц"),
    OperatorEntry("m", "этот месяц"),
    OperatorEntry("lm", "прошлый месяц"),
    OperatorEntry("y", "этот год"),
    OperatorEntry(">t-", "менее, чем дней(я) назад"),
    OperatorEntry("<t-", "более, чем дней(я) назад"),
    OperatorEntry("><t-", "в прошлые дни"),
    OperatorEntry("t-", "дней(я) назад")]

  /** Text operators (utils.py:39-42). */
  const TextOperators: seq<OperatorEntry> := [
    OperatorEntry("~", "содержит"),
    OperatorEntry("!~", "не содержит"),
    OperatorEntry("^", "начинается с"),
    OperatorEntry("$", "заканчивается на")]

  /** Issue relation operators (utils.py:43-47). */
  const RelationOperators: seq<OperatorEntry> := [
    OperatorEntry("=p", "любые задачи в проекте"),
    OperatorEntry("=!p", "любые задачи не в проекте"),
    OperatorEntry("!p", "нет задач в проекте"),
    OperatorEntry("*o", "любые открытые задачи"),
    OperatorEntry("!o", "нет открытых задач")]

  /** SYMBOLS_DECODING: the per-character substitution applied by decode_symbols. */
  const SymbolsDecoding: map<char, string> :=
    map['=' := "%3D", '!' := "%21", '+' := "%2B", ' ' := "+"]

  /** OPERATOR_BY_TYPES: declared by the source but never consulted by any lookup. */
  const OperatorByTypes: map<string, seq<string>> := map[
    "list" := ["=", "!"],
    "list_status" := ["o", "=", "!", "c", "*"],
    "list_optional" := ["=", "!", "!*", "*"],
    "list_subprojects" := ["*", "!*", "=", "!"],
    "date" := ["=", ">=", "<=", "><", "<t+", ">t+", "><t+", "t+", "nd", "t", "ld", "nw", "w", "lw", "l2w", "nm", "m", "lm", "y", ">t-", "<t-", "><t-", "t-", "!*", "*"],
    "date_past" := ["=", ">=", "<=", "><", ">t-", "<t-", "><t-", "t-", "t", "ld", "w", "lw", "l2w", "m", "lm", "y", "!*", "*"],
    "string" := ["~", "=", "!~", "!", "^", "$", "!*", "*"],
    "text" := ["~", "!~", "^", "$", "!*", "*"],
    "integer" := ["=", ">=", "<=", "><", "!*", "*"],
    "float" := ["=", ">=", "<=", "><", "!*", "*"],
    "relation" := ["=", "!", "=p", "=!p", "!p", "*o", "!o", "!*", "*"],
    "tree" := ["=", "~", "!*", "*"]]

  /**
   * AVAILABLE_FILTERS, in table order. The table is written as four consecutive runs
   * so that the verifier can index into it; their concatenation is the source's table.
   */
  const AvailableFilters: seq<FilterEntry> :=
    IssueFieldFilters + CustomFieldFilters + RelationFilters + OtherFilters

  /** Standard issue fields (utils.py:72-108). */
  const IssueFieldFilters: seq<FilterEntry> := [
    FilterEntry("status_id", "list_status", "Статус", true,
                Some([ValueRow("New", "1"), ValueRow("Assigned", "2"), ValueRow("Resolved", "3"), ValueRow("Feedback", "4"), ValueRow("Closed", "5"), ValueRow("Rejected", "6")])),
    FilterEntry("project_id", "list", "Проект", true,
                None),
    FilterEntry("tracker_id", "list", "Трекер", false,
                Some([ValueRow("Bug", "1"), ValueRow("Feature", "2"), ValueRow("Support", "3"), ValueRow("Payment", "4")])),
    FilterEntry("priority_id", "list", "Приоритет", false,
                Some([ValueRow("Background", "12"), ValueRow("Low", "3"), ValueRow("Normal", "4"), ValueRow("High", "5"), ValueRow("Urgent", "6"), ValueRow("Immediate", "7")])),
    FilterEntry("author_id", "list", "Автор", true,
                None),
    FilterEntry("assigned_to_id", "list_optional", "Назначена", true,
                None),
    FilterEntry("member_of_group", "list_optional", "Группа назначенного", true,
                None),
    FilterEntry("assigned_to_role", "list_optional", "Роль назначенного", true,
                None),
    FilterEntry("fixed_version_id", "list_optional", "Версия", true,
                None),
    FilterEntry("fixed_version.due_date", "date", "Версия Дата", false,
                None),
    FilterEntry("fixed_version.status", "list", "Версия Статус", false,
                Some([ValueRow("открыт", "open"), ValueRow("заблокирован", "locked"), ValueRow("закрыт", "closed")])),
    FilterEntry("subject", "text", "Тема", false,
                None),
    FilterEntry("description", "text", "Описание", false,
                None),
    FilterEntry("created_on", "date_past", "Создано", false,
                None),
    FilterEntry("updated_on", "date_past", "Обновлено", false,
                None),
    FilterEntry("closed_on", "date_past", "Закрыта", false,
                None),
    FilterEntry("start_date", "date", "Дата начала", false,
                None),
    FilterEntry("due_date", "date", "Срок завершения", false,
                None),
    FilterEntry("estimated_hours", "float", "Оценка временных затрат", false,
                None),
    FilterEntry("spent_time", "float", "Трудозатраты", false,
                None),
    FilterEntry("done_ratio", "integer", "Готовность", false,
                None),
    FilterEntry("is_private", "list", "Частная", false,
                Some([ValueRow("да", "1"), ValueRow("нет", "0")])),
    FilterEntry("attachment", "text", "Файл", false,
                None),
    FilterEntry("updated_by", "list", "Кем изменено", true,
                None),
    FilterEntry("last_updated_by", "list", "Последний изменивший", true,
                None),
    FilterEntry("project.status", "list", "Проект Статус", true,
                None)]

  /** Custom fields cf_* (utils.py:109-117). */
  const CustomFieldFilters: seq<FilterEntry> := [
    FilterEntry("cf_28", "list_optional", "Payment category", true,
                None),
    FilterEntry("cf_29", "integer", "Payment cash", false,
                None),
    FilterEntry("cf_30", "integer", "Payment cashless", false,
                None),
    FilterEntry("cf_38", "integer", "Rate", false,
                None),
    FilterEntry("cf_39", "integer", "Payment tail", false,
                None),
    FilterEntry("cf_41", "list_optional", "Company", true,
                None),
    FilterEntry("cf_42", "list_optional", "Валюта", true,
                None),
    FilterEntry("fixed_version.cf_32", "list_optional", "Версия Supervisor", true,
                None),
    FilterEntry("fixed_version.cf_36", "list_optional", "Версия Mature", true,
                None)]

  /** Issue relations (utils.py:118-129). */
  const RelationFilters: seq<FilterEntry> := [
    FilterEntry("relates", "relation", "связана с", true,
                None),
    FilterEntry("duplicates", "relation", "дублирует", true,
                None),
    FilterEntry("duplicated", "relation", "дублируется", true,
                None),
    FilterEntry("blocks", "relation", "блокирует", true,
                None),
    FilterEntry("blocked", "relation", "блокируется", true,
                None),
    FilterEntry("precedes", "relation", "следующая", true,
                None),
    FilterEntry("follows", "relation", "предыдущая", true,
                None),
    FilterEntry("copied_to", "relation", "скопирована в", true,
                None),
    FilterEntry("copied_from", "relation", "скопирована с", true,
                None),
    FilterEntry("start_to_start", "relation", "Старт --> Старт", true,
                None),
    FilterEntry("finish_to_finish", "relation", "Финиш --> Финиш", true,
                None),
    FilterEntry("start_to_finish", "relation", "Начало-Окончание", true,
                None)]

  /** Tree, id, time-entry, watcher and tag filters (utils.py:130-135). */
  const OtherFilters: seq<FilterEntry> := [
    FilterEntry("parent_id", "tree", "Родительская задача", false,
                None),
    FilterEntry("child_id", "tree", "Подзадачи", false,
                None),
    FilterEntry("issue_id", "integer", "Задача", false,
                None),
    FilterEntry("last_spent_on", "date_past", "Последняя запись времени", false,
                None),
    FilterEntry("watcher_id", "list", "Наблюдатель", false,
                Some([])),
    FilterEntry("issue_tags", "issue_tags", "Метки", false,
                Some([]))]

  /** FILTERS_WITH_USERS: display names of the filters whose values are user names. */
  const FiltersWithUsers: seq<string> := ["Автор", "Назначена", "Кем изменено", "Последний изменивший"]

  /** TOTALS_OPTIONS: totals option name to the tracker field id. */
  const TotalsOptions: map<string, string> := map[
    "Оценка временных затрат" := "estimated_hours",
    "Трудозатраты" := "spent_hours",
    "Payment cash" := "cf_29",
    "Payment cashless" := "cf_30",
    "Rate" := "cf_38",
    "Payment tail" := "cf_39"]

  /** No two entries of `s` share a label. */
  predicate LabelsDistinct(s: seq<OperatorEntry>) {
    forall i, j :: 0 <= i < j < |s| ==> s[i].caption != s[j].caption
  }

  /** No entry of `a` shares a label with an entry of `b`. */
  predicate LabelsApart(a: seq<OperatorEntry>, b: seq<OperatorEntry>) {
    forall i, j :: 0 <= i < |a| && 0 <= j < |b| ==> a[i].caption != b[j].caption
  }

  /** Two lists with distinct labels and no label in common join into a list with distinct labels. */
  lemma ConcatDistinct(a: seq<OperatorEntry>, b: seq<OperatorEntry>)
    requires LabelsDistinct(a) && LabelsDistinct(b) && LabelsApart(a, b)
    ensures LabelsDistinct(a + b)
  {
    forall i, j | 0 <= i < j < |a + b|
      ensures (a + b)[i].caption != (a + b)[j].caption
    {
      if j < |a| {
      } else if i >= |a| {
        assert (a + b)[i] == b[i - |a|] && (a + b)[j] == b[j - |a|];
      } else {
        assert (a + b)[j] == b[j - |a|];
      }
    }
  }

  lemma SmallGroupsDistinct()
    ensures LabelsDistinct(GeneralOperators) && LabelsDistinct(TextOperators) && LabelsDistinct(RelationOperators)
  {
  }

  lemma DateGroupDistinct()
    ensures LabelsDistinct(DateOperators)
  {
  }

  lemma DateGroupApart()
    ensures LabelsApart(GeneralOperators, DateOperators)
  {
  }

  lemma TextGroupApart()
    ensures LabelsApart(GeneralOperators + DateOperators, TextOperators)
  {
  }

  lemma RelationGroupApart()
    ensures LabelsApart(GeneralOperators + DateOperators + TextOperators, RelationOperators)
  {
  }

  /** No two operators share a label, so the reverse lookup by label is unambiguous. */
  lemma OperatorLabelsDistinct()
    ensures forall i, j :: 0 <= i < j < |OperatorLabels| ==>
              OperatorLabels[i].caption != OperatorLabels[j].caption
  {
    SmallGroupsDistinct();
    DateGroupDistinct();
    DateGroupApart();
    TextGroupApart();
    RelationGroupApart();
    ConcatDistinct(GeneralOperators, DateOperators);
    ConcatDistinct(GeneralOperators + DateOperators, TextOperators);
    ConcatDistinct(GeneralOperators + DateOperators + TextOperators, RelationOperators);
  }
}
