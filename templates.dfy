/**
 * The fixed replies the agent gives without generating an answer. Each is written
 * around the contact number, which every one of them gives.
 */
module Templates {
  import opened Text

  const ContactPhone := "(+48) 14 691 79 79"

  /** Before and after the number in the partnership reply of `handle_business_query`. */
  const PartnershipOpening := @"Bardzo dziękujemy za zainteresowanie współpracą z Aquaforest! 🤝

**NAWIĄZANIE WSPÓŁPRACY**
Chętnie nawiążemy z Państwem współpracę biznesową.

📋 **Formularz kontaktowy**: https://aquaforest.eu/pl/kontakt/

📞 **Infolinia dla klientów biznesowych**: **"
  const PartnershipClosing := @"**  
⏰ **Godziny pracy**: poniedziałek-piątek, 8:00-16:00

**Co oferujemy partnerom:**
🌊 Szeroką gamę produktów Aquaforest (sole, probiotyki, suplementy, akwaria OceanGuard)
🎓 Wsparcie techniczne i szkolenia  
📈 Materiały marketingowe i wsparcie sprzedażowe
💼 Konkurencyjne warunki współpracy

Jeśli masz pytania o dystrybucję naszych produktów, nasi specjaliści są gotowi zapewnić Ci pełne wsparcie i odpowiedzieć na wszystkie pytania biznesowe.

**Czekamy na Twój telefon!** 🌊"

  /** Before and after the number in the technical-support reply of `handle_business_query`. */
  const SupportOpening := @"Dziękujemy za kontakt z Aquaforest! 🛠️

**WSPARCIE TECHNICZNE**
Nasi eksperci są gotowi pomóc w rozwiązaniu problemów technicznych.

📞 **Pomoc techniczna**: **"
  const SupportClosing := @"**  
⏰ **Godziny pracy**: poniedziałek-piątek, 8:00-16:00

📧 **Kontakt**: https://aquaforest.eu/pl/kontakt/

**Czym możemy pomóc:**
🔬 Doradztwo techniczne dotyczące produktów
📊 Interpretacja wyników testów ICP
🌊 Optymalizacja parametrów akwarium
🐠 Rozwiązywanie problemów z hodowlą

**Przygotuj do rozmowy:**
- Model i pojemność akwarium
- Aktualne parametry wody
- Stosowane produkty Aquaforest
- Opis problemu

Nasi specjaliści odpowiedzą na wszystkie pytania techniczne! 🌊"

  /** Before and after the number in the reply of `check_trade_secrets`. */
  const TradeSecretOpening := @"Dziękuję za pytanie o procesy produkcyjne Aquaforest! 🔒

**Informacje o produkcji to tajemnica handlowa firmy** - nie mogę ujawnić szczegółów dotyczących receptur, sposobów wytwarzania czy dokładnych składników.

**Co mogę powiedzieć:**
✅ Aquaforest produkuje w Polsce (Brzesko) od 1995 roku  
✅ Posiadamy własne laboratorium badawcze i hodowlę koralowców
✅ Produkty testowane w realnych warunkach hodowlanych
✅ Stosujemy surowce najwyższej czystości  
✅ Rygorystyczna kontrola jakości każdej partii
✅ Produkcja w małych partiach dla zapewnienia powtarzalności

**Wyróżniki naszej produkcji:**
🧪 **Metoda probiotyczna™** - zastosowanie korzystnych bakterii
🌊 **Hybrydowe sole** - naturalno-syntetyczne z witaminami
🔬 **Testowanie w hodowli** - każdy preparat sprawdzany na żywych organizmach

📞 **Kontakt techniczny**: "
  const TradeSecretClosing := @" (pon-pt, 8:00-16:00)
🌐 **Więcej o firmie**: https://aquaforest.eu/pl/kontakt/"

  /** Before and after the number in the escalation reply of `generate_evaluation_answer`. */
  const EscalationOpening := @"Przepraszam, nie udało mi się znaleźć wystarczająco precyzyjnych informacji na Twoje pytanie w bazie wiedzy Aquaforest.

🔍 **Możesz spróbować:**
1. Zadać pytanie bardziej szczegółowo
2. Sprawdzić instrukcję na opakowaniu produktu
3. Skontaktować się z naszymi ekspertami

📞 **Kontakt z ekspertami**: "
  const EscalationClosing := @" (pon-pt, 8:00-16:00)
🌐 **Formularz kontaktowy**: https://aquaforest.eu/pl/kontakt/

Nasi specjaliści z przyjemnością odpowiedzą na wszystkie pytania! 🌊"

  /** Before and after the number in the dosage fallback of `enhanced_evaluate_content_quality`. */
  const DosageFallbackOpening := @"Nie znalazłem szczegółowych informacji o dawkowaniu w bazie wiedzy Aquaforest.

📦 **Instrukcje dawkowania znajdują się na opakowaniu produktu**
- Zawsze sprawdź etykietę przed użyciem
- Rozpocznij od najmniejszej zalecanej dawki  
- Obserwuj reakcję akwarium i dostosuj dawkę

💡 **Ogólne zasady Aquaforest:**
- Dawki na etykiecie są bezpieczne dla standardowych akwariów
- W przypadku wątpliwości skonsultuj z doświadczonym akwarystą
- Regularnie testuj parametry wody po dodaniu preparatu

📞 **Pomoc techniczna**: "
  const DosageFallbackClosing := @" (pon-pt, 8:00-16:00)

🌐 **Więcej informacji**: https://aquaforest.eu/pl/kontakt/"

  /** Which fixed reply: the state records the choice, and `ReplyText` gives its text. */
  datatype Template = Partnership | Support | TradeSecret | Escalation | DosageFallback

  function Opening(t: Template): string {
    match t
    case Partnership => PartnershipOpening
    case Support => SupportOpening
    case TradeSecret => TradeSecretOpening
    case Escalation => EscalationOpening
    case DosageFallback => DosageFallbackOpening
  }

  function Closing(t: Template): string {
    match t
    case Partnership => PartnershipClosing
    case Support => SupportClosing
    case TradeSecret => TradeSecretClosing
    case Escalation => EscalationClosing
    case DosageFallback => DosageFallbackClosing
  }

  /** The text of a fixed reply: the opening, the contact number, the closing. */
  function ReplyText(t: Template): string {
    Opening(t) + ContactPhone + Closing(t)
  }

  /** Every fixed reply gives the contact number. */
  lemma RepliesGiveContactPhone(t: Template)
    ensures Contains(ReplyText(t), ContactPhone)
  {
    ContainsInfix(Opening(t), ContactPhone, Closing(t));
  }
}
