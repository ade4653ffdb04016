/**
 * The two prefix-to-origin tables of the EAN origin lookup, entry for entry
 * as barcode-validator.js writes them (lines 164-614 and 625-688), including
 * the entries that do not match today's GS1 allocations.
 *
 * Every key of both tables is a string of decimal digits of the table's
 * width, so a table is written as a `match` on the number its key denotes
 * (the leading zeros of the keys are kept in the literals), reached through
 * the prefix text: a prefix that is not all digits matches no key, as in the
 * source. `None` stands for JavaScript's `undefined`. The three-digit table
 * is cut into blocks by its first digit, in the source's order.
 */
module PrefixTables {
  import opened Options
  import opened Text

  /** `prefixMap[prefix]`: the origin listed for a three-character prefix. */
  function OriginByPrefix3(prefix: string): Option<string> {
    if IsDigitString(prefix, 3) then OriginByKey3(DecimalValue(prefix)) else None
  }

  /** `prefix2Map[prefix]`: the origin listed for a two-character prefix. */
  function OriginByPrefix2(prefix: string): Option<string> {
    if IsDigitString(prefix, 2) then OriginByKey2(DecimalValue(prefix)) else None
  }

  /** The three-digit table, keyed by the number its key denotes. */
  function OriginByKey3(key: nat): Option<string> {
    if key < 100 then OriginByKey3Starting0(key)
    else if key < 200 then OriginByKey3Starting1(key)
    else if key < 300 then OriginByKey3Starting2(key)
    else if key < 400 then OriginByKey3Starting3(key)
    else if key < 500 then OriginByKey3Starting4(key)
    else if key < 600 then OriginByKey3Starting5(key)
    else if key < 700 then OriginByKey3Starting6(key)
    else if key < 800 then OriginByKey3Starting7(key)
    else if key < 900 then OriginByKey3Starting8(key)
    else if key < 1000 then OriginByKey3Starting9(key)
    else None
  }

  /** The entries of the three-digit table whose keys start with 0. */
  function OriginByKey3Starting0(key: nat): Option<string> {
    match key
    case 000 => Some("EUA/Canadá (UPC)")
    case 001 => Some("EUA/Canadá (UPC)")
    case 002 => Some("EUA/Canadá (UPC)")
    case 003 => Some("EUA/Canadá (UPC)")
    case 004 => Some("EUA/Canadá (UPC)")
    case 005 => Some("EUA/Canadá (UPC)")
    case 006 => Some("EUA/Canadá (UPC)")
    case 007 => Some("EUA/Canadá (UPC)")
    case 008 => Some("EUA/Canadá (UPC)")
    case 009 => Some("EUA/Canadá (UPC)")
    case 030 => Some("França")
    case 031 => Some("França")
    case 032 => Some("França")
    case 033 => Some("França")
    case 034 => Some("França")
    case 035 => Some("França")
    case 036 => Some("França")
    case 037 => Some("França")
    case 038 => Some("França")
    case 039 => Some("França")
    case 040 => Some("Alemanha")
    case 041 => Some("Alemanha")
    case 042 => Some("Alemanha")
    case 043 => Some("Alemanha")
    case 044 => Some("Alemanha")
    case 045 => Some("Japão")
    case 046 => Some("Rússia")
    case 047 => Some("Rússia")
    case 048 => Some("Rússia")
    case 049 => Some("Japão")
    case 050 => Some("Reino Unido")
    case 054 => Some("Bélgica/Luxemburgo")
    case 057 => Some("Dinamarca")
    case 059 => Some("Islândia")
    case 060 => Some("Grécia")
    case 064 => Some("Finlândia")
    case 070 => Some("Noruega")
    case 073 => Some("Suécia")
    case 076 => Some("Suíça")
    case 077 => Some("Suíça")
    case 078 => Some("Suíça")
    case 079 => Some("Itália")
    case 080 => Some("Itália")
    case 081 => Some("Itália")
    case 082 => Some("Itália")
    case 083 => Some("Itália")
    case 084 => Some("Espanha")
    case 085 => Some("Espanha")
    case 086 => Some("Espanha")
    case 087 => Some("Holanda")
    case 088 => Some("Holanda")
    case 089 => Some("Holanda")
    case 090 => Some("Áustria")
    case 091 => Some("Áustria")
    case 092 => Some("Áustria")
    case 093 => Some("Austrália")
    case 094 => Some("Nova Zelândia")
    case 095 => Some("Malásia")
    case 096 => Some("Indonésia")
    case 097 => Some("Indonésia")
    case 098 => Some("Singapura")
    case 099 => Some("Singapura")
    case _ => None
  }

  /** The entries of the three-digit table whose keys start with 1. */
  function OriginByKey3Starting1(key: nat): Option<string> {
    match key
    case 100 => Some("Rússia")
    case 101 => Some("Rússia")
    case 102 => Some("Rússia")
    case 103 => Some("Rússia")
    case 104 => Some("Rússia")
    case 105 => Some("Rússia")
    case 106 => Some("Rússia")
    case 107 => Some("Rússia")
    case 108 => Some("Rússia")
    case 109 => Some("Rússia")
    case _ => None
  }

  /** The entries of the three-digit table whose keys start with 2. */
  function OriginByKey3Starting2(key: nat): Option<string> {
    match key
    case 200 => Some("Uso interno")
    case 201 => Some("Uso interno")
    case 202 => Some("Uso interno")
    case 203 => Some("Uso interno")
    case 204 => Some("Uso interno")
    case 205 => Some("Uso interno")
    case 206 => Some("Uso interno")
    case 207 => Some("Uso interno")
    case 208 => Some("Uso interno")
    case 209 => Some("Uso interno")
    case _ => None
  }

  /** The entries of the three-digit table whose keys start with 3. */
  function OriginByKey3Starting3(key: nat): Option<string> {
    match key
    case 300 => Some("França")
    case 301 => Some("França")
    case 302 => Some("França")
    case 303 => Some("França")
    case 304 => Some("França")
    case 305 => Some("França")
    case 306 => Some("França")
    case 307 => Some("França")
    case 308 => Some("França")
    case 309 => Some("França")
    case 380 => Some("Bulgária")
    case 383 => Some("Eslovênia")
    case 385 => Some("Croácia")
    case 387 => Some("Bósnia-Herzegovina")
    case _ => None
  }

  /** The entries of the three-digit table whose keys start with 4. */
  function OriginByKey3Starting4(key: nat): Option<string> {
    match key
    case 400 => Some("Alemanha")
    case 401 => Some("Alemanha")
    case 402 => Some("Alemanha")
    case 403 => Some("Alemanha")
    case 404 => Some("Alemanha")
    case 405 => Some("Alemanha")
    case 406 => Some("Alemanha")
    case 407 => Some("Alemanha")
    case 408 => Some("Alemanha")
    case 409 => Some("Alemanha")
    case 410 => Some("Alemanha")
    case 411 => Some("Alemanha")
    case 412 => Some("Alemanha")
    case 413 => Some("Alemanha")
    case 414 => Some("Alemanha")
    case 415 => Some("Alemanha")
    case 416 => Some("Alemanha")
    case 417 => Some("Alemanha")
    case 418 => Some("Alemanha")
    case 419 => Some("Alemanha")
    case 420 => Some("Alemanha")
    case 421 => Some("Alemanha")
    case 422 => Some("Alemanha")
    case 423 => Some("Alemanha")
    case 424 => Some("Alemanha")
    case 425 => Some("Alemanha")
    case 426 => Some("Alemanha")
    case 427 => Some("Alemanha")
    case 428 => Some("Alemanha")
    case 429 => Some("Alemanha")
    case 430 => Some("Alemanha")
    case 431 => Some("Alemanha")
    case 432 => Some("Alemanha")
    case 433 => Some("Alemanha")
    case 434 => Some("Alemanha")
    case 435 => Some("Alemanha")
    case 436 => Some("Alemanha")
    case 437 => Some("Alemanha")
    case 438 => Some("Alemanha")
    case 439 => Some("Alemanha")
    case 440 => Some("Alemanha")
    case 450 => Some("Japão")
    case 451 => Some("Japão")
    case 452 => Some("Japão")
    case 453 => Some("Japão")
    case 454 => Some("Japão")
    case 455 => Some("Japão")
    case 456 => Some("Japão")
    case 457 => Some("Japão")
    case 458 => Some("Japão")
    case 459 => Some("Japão")
    case 460 => Some("Rússia")
    case 461 => Some("Rússia")
    case 462 => Some("Rússia")
    case 463 => Some("Rússia")
    case 464 => Some("Rússia")
    case 465 => Some("Rússia")
    case 466 => Some("Rússia")
    case 467 => Some("Rússia")
    case 468 => Some("Rússia")
    case 469 => Some("Rússia")
    case 470 => Some("Quirguistão")
    case 471 => Some("Taiwan")
    case 474 => Some("Estônia")
    case 475 => Some("Letônia")
    case 476 => Some("Azerbaijão")
    case 477 => Some("Lituânia")
    case 478 => Some("Uzbequistão")
    case 479 => Some("Sri Lanka")
    case 480 => Some("Filipinas")
    case 481 => Some("Belarus")
    case 482 => Some("Ucrânia")
    case 484 => Some("Moldávia")
    case 485 => Some("Armênia")
    case 486 => Some("Geórgia")
    case 487 => Some("Cazaquistão")
    case 489 => Some("Hong Kong")
    case 490 => Some("Japão")
    case 491 => Some("Japão")
    case 492 => Some("Japão")
    case 493 => Some("Japão")
    case 494 => Some("Japão")
    case 495 => Some("Japão")
    case 496 => Some("Japão")
    case 497 => Some("Japão")
    case 498 => Some("Japão")
    case 499 => Some("Japão")
    case _ => None
  }

  /** The entries of the three-digit table whose keys start with 5. */
  function OriginByKey3Starting5(key: nat): Option<string> {
    match key
    case 500 => Some("Reino Unido")
    case 501 => Some("Reino Unido")
    case 502 => Some("Reino Unido")
    case 503 => Some("Reino Unido")
    case 504 => Some("Reino Unido")
    case 505 => Some("Reino Unido")
    case 506 => Some("Reino Unido")
    case 507 => Some("Reino Unido")
    case 508 => Some("Reino Unido")
    case 509 => Some("Reino Unido")
    case 520 => Some("Grécia")
    case 528 => Some("Líbano")
    case 529 => Some("Chipre")
    case 530 => Some("Albânia")
    case 531 => Some("Macedônia")
    case 535 => Some("Malta")
    case 539 => Some("Irlanda")
    case 540 => Some("Bélgica/Luxemburgo")
    case 541 => Some("Bélgica/Luxemburgo")
    case 542 => Some("Bélgica/Luxemburgo")
    case 543 => Some("Bélgica/Luxemburgo")
    case 544 => Some("Bélgica/Luxemburgo")
    case 545 => Some("Bélgica/Luxemburgo")
    case 546 => Some("Bélgica/Luxemburgo")
    case 547 => Some("Bélgica/Luxemburgo")
    case 548 => Some("Bélgica/Luxemburgo")
    case 549 => Some("Bélgica/Luxemburgo")
    case 560 => Some("Portugal")
    case 569 => Some("Islândia")
    case 570 => Some("Dinamarca")
    case 571 => Some("Dinamarca")
    case 572 => Some("Dinamarca")
    case 573 => Some("Dinamarca")
    case 574 => Some("Dinamarca")
    case 575 => Some("Dinamarca")
    case 576 => Some("Dinamarca")
    case 577 => Some("Dinamarca")
    case 578 => Some("Dinamarca")
    case 579 => Some("Dinamarca")
    case 590 => Some("Polônia")
    case 594 => Some("Romênia")
    case 599 => Some("Hungria")
    case _ => None
  }

  /** The entries of the three-digit table whose keys start with 6. */
  function OriginByKey3Starting6(key: nat): Option<string> {
    match key
    case 600 => Some("África do Sul")
    case 601 => Some("África do Sul")
    case 603 => Some("Gana")
    case 604 => Some("Senegal")
    case 608 => Some("Bahrein")
    case 609 => Some("Mauritius")
    case 611 => Some("Marrocos")
    case 613 => Some("Argélia")
    case 616 => Some("Quênia")
    case 619 => Some("Tunísia")
    case 621 => Some("Síria")
    case 622 => Some("Egito")
    case 624 => Some("Líbia")
    case 625 => Some("Jordânia")
    case 626 => Some("Irã")
    case 627 => Some("Kuwait")
    case 628 => Some("Arábia Saudita")
    case 629 => Some("Emirados Árabes Unidos")
    case 640 => Some("Finlândia")
    case 641 => Some("Finlândia")
    case 642 => Some("Finlândia")
    case 643 => Some("Finlândia")
    case 644 => Some("Finlândia")
    case 645 => Some("Finlândia")
    case 646 => Some("Finlândia")
    case 647 => Some("Finlândia")
    case 648 => Some("Finlândia")
    case 649 => Some("Finlândia")
    case 690 => Some("China")
    case 691 => Some("China")
    case 692 => Some("China")
    case 693 => Some("China")
    case 694 => Some("China")
    case 695 => Some("China")
    case 696 => Some("China")
    case 697 => Some("China")
    case 698 => Some("China")
    case 699 => Some("China")
    case _ => None
  }

  /** The entries of the three-digit table whose keys start with 7. */
  function OriginByKey3Starting7(key: nat): Option<string> {
    match key
    case 700 => Some("Noruega")
    case 701 => Some("Noruega")
    case 702 => Some("Noruega")
    case 703 => Some("Noruega")
    case 704 => Some("Noruega")
    case 705 => Some("Noruega")
    case 706 => Some("Noruega")
    case 707 => Some("Noruega")
    case 708 => Some("Noruega")
    case 709 => Some("Noruega")
    case 729 => Some("Israel")
    case 730 => Some("Suécia")
    case 731 => Some("Suécia")
    case 732 => Some("Suécia")
    case 733 => Some("Suécia")
    case 734 => Some("Suécia")
    case 735 => Some("Suécia")
    case 736 => Some("Suécia")
    case 737 => Some("Suécia")
    case 738 => Some("Suécia")
    case 739 => Some("Suécia")
    case 740 => Some("Guatemala")
    case 741 => Some("El Salvador")
    case 742 => Some("Honduras")
    case 743 => Some("Nicarágua")
    case 744 => Some("Costa Rica")
    case 745 => Some("Panamá")
    case 746 => Some("República Dominicana")
    case 750 => Some("México")
    case 754 => Some("Canadá")
    case 755 => Some("Canadá")
    case 759 => Some("Venezuela")
    case 760 => Some("Suíça")
    case 761 => Some("Suíça")
    case 762 => Some("Suíça")
    case 763 => Some("Suíça")
    case 764 => Some("Suíça")
    case 765 => Some("Suíça")
    case 766 => Some("Suíça")
    case 767 => Some("Suíça")
    case 768 => Some("Suíça")
    case 769 => Some("Suíça")
    case 770 => Some("Colômbia")
    case 773 => Some("Uruguai")
    case 775 => Some("Peru")
    case 777 => Some("Bolívia")
    case 778 => Some("Argentina")
    case 779 => Some("Argentina")
    case 780 => Some("Chile")
    case 784 => Some("Paraguai")
    case 786 => Some("Equador")
    case 789 => Some("Brasil")
    case 790 => Some("Brasil")
    case _ => None
  }

  /** The entries of the three-digit table whose keys start with 8. */
  function OriginByKey3Starting8(key: nat): Option<string> {
    match key
    case 800 => Some("Itália")
    case 801 => Some("Itália")
    case 802 => Some("Itália")
    case 803 => Some("Itália")
    case 804 => Some("Itália")
    case 805 => Some("Itália")
    case 806 => Some("Itália")
    case 807 => Some("Itália")
    case 808 => Some("Itália")
    case 809 => Some("Itália")
    case 810 => Some("Itália")
    case 811 => Some("Itália")
    case 812 => Some("Itália")
    case 813 => Some("Itália")
    case 814 => Some("Itália")
    case 815 => Some("Itália")
    case 816 => Some("Itália")
    case 817 => Some("Itália")
    case 818 => Some("Itália")
    case 819 => Some("Itália")
    case 820 => Some("Itália")
    case 821 => Some("Itália")
    case 822 => Some("Itália")
    case 823 => Some("Itália")
    case 824 => Some("Itália")
    case 825 => Some("Itália")
    case 826 => Some("Itália")
    case 827 => Some("Itália")
    case 828 => Some("Itália")
    case 829 => Some("Itália")
    case 830 => Some("Itália")
    case 831 => Some("Itália")
    case 832 => Some("Itália")
    case 833 => Some("Itália")
    case 834 => Some("Itália")
    case 835 => Some("Itália")
    case 836 => Some("Itália")
    case 837 => Some("Itália")
    case 838 => Some("Itália")
    case 839 => Some("Itália")
    case 840 => Some("Espanha")
    case 841 => Some("Espanha")
    case 842 => Some("Espanha")
    case 843 => Some("Espanha")
    case 844 => Some("Espanha")
    case 845 => Some("Espanha")
    case 846 => Some("Espanha")
    case 847 => Some("Espanha")
    case 848 => Some("Espanha")
    case 849 => Some("Espanha")
    case 850 => Some("Cuba")
    case 858 => Some("Eslováquia")
    case 859 => Some("República Tcheca")
    case 860 => Some("Sérvia")
    case 865 => Some("Mongólia")
    case 867 => Some("Coreia do Norte")
    case 868 => Some("Turquia")
    case 869 => Some("Turquia")
    case 870 => Some("Holanda")
    case 871 => Some("Holanda")
    case 872 => Some("Holanda")
    case 873 => Some("Holanda")
    case 874 => Some("Holanda")
    case 875 => Some("Holanda")
    case 876 => Some("Holanda")
    case 877 => Some("Holanda")
    case 878 => Some("Holanda")
    case 879 => Some("Holanda")
    case 880 => Some("Coreia do Sul")
    case 884 => Some("Camboja")
    case 885 => Some("Tailândia")
    case 888 => Some("Singapura")
    case 890 => Some("Índia")
    case 893 => Some("Vietnã")
    case 896 => Some("Paquistão")
    case 899 => Some("Indonésia")
    case _ => None
  }

  /** The entries of the three-digit table whose keys start with 9. */
  function OriginByKey3Starting9(key: nat): Option<string> {
    match key
    case 900 => Some("Áustria")
    case 901 => Some("Áustria")
    case 902 => Some("Áustria")
    case 903 => Some("Áustria")
    case 904 => Some("Áustria")
    case 905 => Some("Áustria")
    case 906 => Some("Áustria")
    case 907 => Some("Áustria")
    case 908 => Some("Áustria")
    case 909 => Some("Áustria")
    case 910 => Some("Áustria")
    case 911 => Some("Áustria")
    case 912 => Some("Áustria")
    case 913 => Some("Áustria")
    case 914 => Some("Áustria")
    case 915 => Some("Áustria")
    case 916 => Some("Áustria")
    case 917 => Some("Áustria")
    case 918 => Some("Áustria")
    case 919 => Some("Áustria")
    case 930 => Some("Austrália")
    case 931 => Some("Austrália")
    case 932 => Some("Austrália")
    case 933 => Some("Austrália")
    case 934 => Some("Austrália")
    case 935 => Some("Austrália")
    case 936 => Some("Austrália")
    case 937 => Some("Austrália")
    case 938 => Some("Austrália")
    case 939 => Some("Austrália")
    case 940 => Some("Nova Zelândia")
    case 941 => Some("Nova Zelândia")
    case 942 => Some("Nova Zelândia")
    case 943 => Some("Nova Zelândia")
    case 944 => Some("Nova Zelândia")
    case 945 => Some("Nova Zelândia")
    case 946 => Some("Nova Zelândia")
    case 947 => Some("Nova Zelândia")
    case 948 => Some("Nova Zelândia")
    case 949 => Some("Nova Zelândia")
    case 950 => Some("GS1 Global Office")
    case 955 => Some("Malásia")
    case 958 => Some("Macau")
    case 977 => Some("Publicações periódicas (ISSN)")
    case 978 => Some("Livros (ISBN)")
    case 979 => Some("Livros (ISBN)")
    case 980 => Some("Recibos de reembolso")
    case 981 => Some("Cupons de desconto")
    case 982 => Some("Cupons de desconto")
    case 990 => Some("Cupons")
    case 991 => Some("Cupons")
    case 992 => Some("Cupons")
    case 993 => Some("Cupons")
    case 994 => Some("Cupons")
    case 995 => Some("Cupons")
    case 996 => Some("Cupons")
    case 997 => Some("Cupons")
    case 998 => Some("Cupons")
    case 999 => Some("Cupons")
    case _ => None
  }

  /** The two-digit table, keyed by the number its key denotes. */
  function OriginByKey2(key: nat): Option<string> {
    match key
    case 00 => Some("EUA/Canadá (UPC)")
    case 01 => Some("EUA/Canadá (UPC)")
    case 02 => Some("Uso restrito")
    case 03 => Some("França")
    case 04 => Some("Alemanha")
    case 05 => Some("Reino Unido")
    case 06 => Some("China")
    case 07 => Some("Noruega")
    case 08 => Some("Itália")
    case 09 => Some("Áustria")
    case 10 => Some("Rússia")
    case 20 => Some("Uso interno")
    case 30 => Some("França")
    case 31 => Some("França")
    case 32 => Some("França")
    case 33 => Some("França")
    case 34 => Some("França")
    case 35 => Some("França")
    case 36 => Some("França")
    case 37 => Some("França")
    case 38 => Some("França")
    case 39 => Some("França")
    case 40 => Some("Alemanha")
    case 41 => Some("Alemanha")
    case 42 => Some("Alemanha")
    case 43 => Some("Alemanha")
    case 44 => Some("Alemanha")
    case 45 => Some("Japão")
    case 46 => Some("Rússia")
    case 47 => Some("Rússia")
    case 48 => Some("Rússia")
    case 49 => Some("Japão")
    case 50 => Some("Reino Unido")
    case 52 => Some("Grécia")
    case 53 => Some("Diversos")
    case 54 => Some("Bélgica/Luxemburgo")
    case 56 => Some("Portugal")
    case 57 => Some("Dinamarca")
    case 59 => Some("Polônia")
    case 60 => Some("África do Sul")
    case 64 => Some("Finlândia")
    case 69 => Some("China")
    case 70 => Some("Noruega")
    case 72 => Some("Israel")
    case 73 => Some("Suécia")
    case 74 => Some("América Central")
    case 75 => Some("México/Canadá")
    case 76 => Some("Suíça")
    case 77 => Some("América do Sul")
    case 78 => Some("América do Sul")
    case 79 => Some("Brasil")
    case 80 => Some("Itália")
    case 84 => Some("Espanha")
    case 85 => Some("Diversos")
    case 86 => Some("Diversos")
    case 87 => Some("Holanda")
    case 88 => Some("Ásia")
    case 89 => Some("Ásia")
    case 90 => Some("Áustria")
    case 93 => Some("Austrália")
    case 94 => Some("Nova Zelândia")
    case 95 => Some("Diversos")
    case 97 => Some("Publicações (ISSN)")
    case 98 => Some("Livros (ISBN)")
    case _ => None
  }

  /**
   * No listed origin is the empty string, so JavaScript's truthiness test
   * on a lookup is exactly "the prefix is listed".
   */
  lemma ListedOriginsAreNonEmpty(prefix: string)
    ensures OriginByPrefix3(prefix).Some? ==> OriginByPrefix3(prefix).value != ""
    ensures OriginByPrefix2(prefix).Some? ==> OriginByPrefix2(prefix).value != ""
  {
  }
}
