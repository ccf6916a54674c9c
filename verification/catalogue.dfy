/**
 * The texts of the issue catalogue: the message template and the advice of
 * every issue the evaluator can push, in the evaluator's own words. An issue
 * carries its message as a template id and a slot value, and its
 * recommendation as the id of an advice; `MessageText` and `AdviceText`
 * spell them out as the route writes them into the report.
 */
module Catalogue {
  import opened Text
  import opened SeoTypes

  /** The tail of every message that reports a length. */
  const CountTail: string := " caracteres)."
  const TitleMissingText: string := "A tag <title> está ausente."
  const TitleMissingAdvice: string := "Defina um título único e descritivo para a página (30–60 caracteres)."
  const TitleTooShortText: string := "O título é muito curto ("
  const TitleTooShortAdvice: string := "Use um título entre 30 e 60 caracteres, incluindo palavra‑chave principal."
  const TitleTooLongText: string := "O título é muito longo ("
  const TitleTooLongAdvice: string := "Tente manter o título entre 50 e 60 caracteres para evitar truncamento nas SERPs."
  const TitleOkText: string := "O título tem um bom tamanho ("
  const DescriptionMissingText: string := "A meta description está ausente."
  const DescriptionMissingAdvice: string := "Adicione uma meta description única e persuasiva (70–160 caracteres)."
  const DescriptionTooShortText: string := "A meta description é curta ("
  const DescriptionTooShortAdvice: string := "Explique melhor o conteúdo, utilizando entre 120 e 160 caracteres."
  const DescriptionTooLongText: string := "A meta description é longa ("
  const DescriptionTooLongAdvice: string := "Reduza para cerca de 160 caracteres para minimizar truncamento."
  const DescriptionOkText: string := "A meta description tem um bom tamanho ("
  const CanonicalMissingText: string := "Tag canonical ausente."
  const CanonicalMissingAdvice: string := "Considere adicionar uma tag canonical apontando para a URL preferencial para evitar conteúdo duplicado."
  const CanonicalRelativeText: string := "A tag canonical é relativa."
  const CanonicalRelativeAdvice: string := "Prefira sempre URLs absolutas na tag canonical (incluindo protocolo e domínio)."
  const CanonicalDiffersText: string := "A URL canonical difere da URL analisada."
  const CanonicalDiffersAdvice: string := "Verifique se a canonical realmente deve apontar para outra URL (por exemplo, versão sem parâmetros)."
  const CanonicalOkText: string := "Tag canonical configurada corretamente."
  const CanonicalInvalidText: string := "A URL da tag canonical parece inválida."
  const CanonicalInvalidAdvice: string := "Verifique se a canonical é uma URL válida e completa."
  const RobotsNoindexText: string := "A página está marcada com \"noindex\"."
  const RobotsNoindexAdvice: string := "Confirme se a intenção é realmente impedir a indexação desta página."
  const RobotsNofollowText: string := "A página está marcada com \"nofollow\"."
  const RobotsNofollowAdvice: string := "Confirme se deseja realmente que os links desta página não sejam seguidos."
  const RobotsOkText: string := "Meta robots configurada: "
  const RobotsNoneText: string := "Sem meta robots (padrão: index, follow)."
  const LangMissingText: string := "A tag de idioma (atributo lang em <html>) não foi encontrada."
  const LangMissingAdvice: string := "Defina o atributo lang em <html>, por exemplo lang=\"pt-BR\"."
  const LangOkText: string := "Atributo lang presente: "
  const CharsetMissingText: string := "Meta charset não encontrada."
  const CharsetMissingAdvice: string := "Defina <meta charset=\"utf-8\"> para garantir codificação consistente."
  const CharsetOkText: string := "Meta charset definida: "
  const OgIncompleteText: string := "Tags Open Graph importantes estão incompletas."
  const OgIncompleteAdvice: string := "Inclua pelo menos og:title, og:description e og:image para uma boa pré-visualização em Facebook, Discord e Mastodon."
  const OgOkText: string := "Principais tags Open Graph configuradas."
  const TwitterCardMissingText: string := "Meta twitter:card ausente."
  const TwitterCardMissingAdvice: string := "Adicione <meta name=\"twitter:card\" content=\"summary_large_image\"> para uma boa prévia no X (Twitter)."
  const TwitterOkText: string := "Meta twitter:card presente: "

  /** The templates that report the length of the title or the description. */
  predicate ReportsLength(id: IssueId) {
    id in {TitleTooShort, TitleTooLong, TitleOk, DescriptionTooShort, DescriptionTooLong, DescriptionOk}
  }

  /** The templates that end in the value of the tag they report. */
  predicate ReportsValue(id: IssueId) {
    id in {RobotsOk, LangOk, CharsetOk, TwitterOk}
  }

  /** The message as the report shows it. */
  function MessageText(m: Message): string {
    match m.template
    case TitleMissing => TitleMissingText
    case TitleTooShort => TitleTooShortText + m.slot + CountTail
    case TitleTooLong => TitleTooLongText + m.slot + CountTail
    case TitleOk => TitleOkText + m.slot + CountTail
    case DescriptionMissing => DescriptionMissingText
    case DescriptionTooShort => DescriptionTooShortText + m.slot + CountTail
    case DescriptionTooLong => DescriptionTooLongText + m.slot + CountTail
    case DescriptionOk => DescriptionOkText + m.slot + CountTail
    case CanonicalMissing => CanonicalMissingText
    case CanonicalRelative => CanonicalRelativeText
    case CanonicalDiffers => CanonicalDiffersText
    case CanonicalOk => CanonicalOkText
    case CanonicalInvalid => CanonicalInvalidText
    case RobotsNoindex => RobotsNoindexText
    case RobotsNofollow => RobotsNofollowText
    case RobotsOk => RobotsOkText + m.slot
    case RobotsNone => RobotsNoneText
    case LangMissing => LangMissingText
    case LangOk => LangOkText + m.slot
    case CharsetMissing => CharsetMissingText
    case CharsetOk => CharsetOkText + m.slot
    case OgIncomplete => OgIncompleteText
    case OgOk => OgOkText
    case TwitterCardMissing => TwitterCardMissingText
    case TwitterOk => TwitterOkText + m.slot
  }

  /** The recommendation as the report shows it. */
  function AdviceText(a: Advice): string
    requires a.template.Advised()
  {
    match a.template
    case TitleMissing => TitleMissingAdvice
    case TitleTooShort => TitleTooShortAdvice
    case TitleTooLong => TitleTooLongAdvice
    case DescriptionMissing => DescriptionMissingAdvice
    case DescriptionTooShort => DescriptionTooShortAdvice
    case DescriptionTooLong => DescriptionTooLongAdvice
    case CanonicalMissing => CanonicalMissingAdvice
    case CanonicalRelative => CanonicalRelativeAdvice
    case CanonicalDiffers => CanonicalDiffersAdvice
    case CanonicalInvalid => CanonicalInvalidAdvice
    case RobotsNoindex => RobotsNoindexAdvice
    case RobotsNofollow => RobotsNofollowAdvice
    case LangMissing => LangMissingAdvice
    case CharsetMissing => CharsetMissingAdvice
    case OgIncomplete => OgIncompleteAdvice
    case TwitterCardMissing => TwitterCardMissingAdvice
  }

  /** A message that reports a length or a value contains it. */
  lemma SlotInMessage(m: Message)
    requires ReportsLength(m.template) || ReportsValue(m.template)
    ensures Contains(MessageText(m), m.slot)
  {
    match m.template
    case TitleTooShort => ContainsInfix(TitleTooShortText, m.slot, CountTail);
    case TitleTooLong => ContainsInfix(TitleTooLongText, m.slot, CountTail);
    case TitleOk => ContainsInfix(TitleOkText, m.slot, CountTail);
    case DescriptionTooShort => ContainsInfix(DescriptionTooShortText, m.slot, CountTail);
    case DescriptionTooLong => ContainsInfix(DescriptionTooLongText, m.slot, CountTail);
    case DescriptionOk => ContainsInfix(DescriptionOkText, m.slot, CountTail);
    case RobotsOk =>
      ContainsInfix(RobotsOkText, m.slot, "");
      assert RobotsOkText + m.slot + "" == RobotsOkText + m.slot;
    case LangOk =>
      ContainsInfix(LangOkText, m.slot, "");
      assert LangOkText + m.slot + "" == LangOkText + m.slot;
    case CharsetOk =>
      ContainsInfix(CharsetOkText, m.slot, "");
      assert CharsetOkText + m.slot + "" == CharsetOkText + m.slot;
    case TwitterOk =>
      ContainsInfix(TwitterOkText, m.slot, "");
      assert TwitterOkText + m.slot + "" == TwitterOkText + m.slot;
  }

  /** Every recommendation has text, so the list always shows it as a suggestion. */
  lemma AdviceNonEmpty(a: Advice)
    requires a.template.Advised()
    ensures AdviceText(a) != ""
  {
  }
}
